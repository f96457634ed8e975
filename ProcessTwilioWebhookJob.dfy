/**
 * The queued job that routes a stored call: it reads the event type from one
 * payload field, fires an event named after it, and dispatches the job class
 * configured for it. The event bus and the queue are the ghost logs `events`
 * and `queue`; `class_exists` is membership in `knownClasses`.
 */
module Processing {
  import opened Wrappers
  import opened Strings
  import opened Php
  import opened Records
  import opened Failures
  import Config

  const DefaultKey := "CallStatus"
  const EventPrefix := "twilio-webhooks::"
  const JobsPrefix := "twilio-webhooks.jobs."

  /** An event fired on the event bus with the call as its payload. */
  datatype FiredEvent = FiredEvent(name: string, call: WebhookCall)

  /** A job instance of `jobClass` pushed onto the queue, constructed with the call. */
  datatype QueuedJob = QueuedJob(jobClass: string, call: WebhookCall)

  /** `Arr::get($webhookCall, "payload.<key>")`. */
  function TypeAt(call: WebhookCall, key: string): Option<string> {
    FlatGet(call.payload, key)
  }

  /** The event name: the namespace followed by the type, all lower-cased; dots in
      the type are kept. */
  function DetermineEventKey(eventType: string): (r: string)
    ensures r == EventPrefix + Lower(eventType)
  {
    LowerAppend(EventPrefix, eventType);
    LowerKeepsLowerCase(EventPrefix);
    Lower(EventPrefix + eventType)
  }

  /** The config path of the job for a type: the `jobs` section followed by one
      segment, the type with dots made underscores and lower-cased. */
  function DetermineJobConfigKey(eventType: string): (r: string)
    ensures r == JobsPrefix + Lower(ReplaceDots(eventType))
    ensures '.' !in r[|JobsPrefix|..] && IsLowerCase(r)
  {
    LowerAppend(JobsPrefix, ReplaceDots(eventType));
    LowerKeepsLowerCase(JobsPrefix);
    LowerReplaceDotsCommute(eventType);
    Lower(JobsPrefix + ReplaceDots(eventType))
  }

  /** `config(<job config key>, '')`: the class configured under the type's segment
      of `jobs`, or `''` when there is none. */
  function DetermineJobClass(jobs: map<string, string>, eventType: string): (r: string)
    ensures var name := Lower(ReplaceDots(eventType));
      r == if name in jobs then jobs[name] else ""
  {
    var path := DetermineJobConfigKey(eventType);
    FlatGet(jobs, path[|JobsPrefix|..]).GetOr("")
  }

  /** What one run of `handle` does: the events it fires, the jobs it queues, and
      what it throws, in that order of effect. */
  datatype Effects = Effects(events: seq<FiredEvent>, queued: seq<QueuedJob>, thrown: Option<Thrown>)

  /** The effects of handling `call` with type key `key`, job table `jobs`, and the
      classes that exist. */
  function HandleEffects(call: WebhookCall, key: string, jobs: map<string, string>, knownClasses: set<string>): Effects {
    var eventType := TypeAt(call, key);
    if !Truthy(eventType) then Effects([], [], Some(Failed(MissingType(call))))
    else
      var fired := [FiredEvent(DetermineEventKey(eventType.value), call)];
      var jobClass := DetermineJobClass(jobs, eventType.value);
      if jobClass == "" then Effects(fired, [], None)
      else if jobClass !in knownClasses then Effects(fired, [], Some(JobClassDoesNotExist(jobClass, call)))
      else Effects(fired, [QueuedJob(jobClass, call)], None)
  }

  class ProcessTwilioWebhookJob {
    const webhookCall: WebhookCall
    var key: string
    ghost var events: seq<FiredEvent>
    ghost var queue: seq<QueuedJob>

    constructor (webhookCall: WebhookCall)
      ensures this.webhookCall == webhookCall && key == DefaultKey
      ensures events == [] && queue == []
    {
      this.webhookCall := webhookCall;
      key := DefaultKey;
      events := [];
      queue := [];
    }

    method GetKey() returns (k: string)
      ensures k == key
    {
      k := key;
    }

    /** Changes the payload field the type is read from and returns the same job. */
    method SetKey(key: string) returns (job: ProcessTwilioWebhookJob)
      modifies this`key
      ensures job == this && this.key == key
    {
      this.key := key;
      job := this;
    }

    method Handle(jobs: map<string, string>, knownClasses: set<string>) returns (thrown: Option<Thrown>)
      modifies this`events, this`queue
      ensures var e := HandleEffects(webhookCall, key, jobs, knownClasses);
        && events == old(events) + e.events
        && queue == old(queue) + e.queued
        && thrown == e.thrown
    {
      var eventType := TypeAt(webhookCall, key);
      if !Truthy(eventType) {
        return Some(Failed(MissingType(webhookCall)));
      }
      events := events + [FiredEvent(DetermineEventKey(eventType.value), webhookCall)];
      var jobClass := DetermineJobClass(jobs, eventType.value);
      if jobClass == "" {
        return None;
      }
      if jobClass !in knownClasses {
        return Some(JobClassDoesNotExist(jobClass, webhookCall));
      }
      queue := queue + [QueuedJob(jobClass, webhookCall)];
      thrown := None;
    }
  }

  /** A freshly built job reads `CallStatus`; after `SetKey(k)` it reads `k`. */
  method KeyScenario(call: WebhookCall, k: string) returns (before: string, after: string)
    ensures before == DefaultKey && after == k
  {
    var job := new ProcessTwilioWebhookJob(call);
    before := job.GetKey();
    var same := job.SetKey(k);
    after := same.GetKey();
  }

  /** The type is missing or falsy exactly when `missingType` is thrown, and then
      nothing is fired and nothing is queued. */
  lemma MissingTypeIffNothingHappens(call: WebhookCall, key: string, jobs: map<string, string>, knownClasses: set<string>)
    ensures var e := HandleEffects(call, key, jobs, knownClasses);
      e.thrown == Some(Failed(MissingType(call))) <==> !Truthy(TypeAt(call, key))
    ensures var e := HandleEffects(call, key, jobs, knownClasses);
      !Truthy(TypeAt(call, key)) ==> e.events == [] && e.queued == []
  {
  }

  /** With a truthy type the event fires exactly once, before and independently of
      the job lookup: it is the same whatever the job table and the known classes,
      so it fires even when no job is configured or the configured class is missing. */
  lemma EventFiresBeforeJobLookup(call: WebhookCall, key: string,
                                  jobs1: map<string, string>, known1: set<string>,
                                  jobs2: map<string, string>, known2: set<string>)
    requires Truthy(TypeAt(call, key))
    ensures HandleEffects(call, key, jobs1, known1).events
         == HandleEffects(call, key, jobs2, known2).events
         == [FiredEvent(EventPrefix + Lower(TypeAt(call, key).value), call)]
  {
  }

  /** At most one job is queued; it carries the same call, its class exists and is
      the one configured for the type, and nothing is thrown alongside it. */
  lemma AtMostOneJob(call: WebhookCall, key: string, jobs: map<string, string>, knownClasses: set<string>)
    ensures var e := HandleEffects(call, key, jobs, knownClasses);
      && |e.queued| <= 1
      && (e.queued != [] <==>
           Truthy(TypeAt(call, key))
           && DetermineJobClass(jobs, TypeAt(call, key).value) != ""
           && DetermineJobClass(jobs, TypeAt(call, key).value) in knownClasses)
      && (e.queued != [] ==>
           e.thrown == None
           && e.queued[0] == QueuedJob(DetermineJobClass(jobs, TypeAt(call, key).value), call))
  {
  }

  /** No configured job, or an explicit `''`, ends the run quietly after the event. */
  lemma NoJobConfiguredIsQuiet(call: WebhookCall, key: string, jobs: map<string, string>, knownClasses: set<string>)
    requires Truthy(TypeAt(call, key))
    requires DetermineJobClass(jobs, TypeAt(call, key).value) == ""
    ensures var e := HandleEffects(call, key, jobs, knownClasses);
      e.thrown == None && e.queued == [] && |e.events| == 1
  {
  }

  /** A configured class that does not exist throws after the event, queueing
      nothing. The thrown value reports the payload's `CallStatus`, not the value
      read under a changed key, and is PHP's undefined-key error when the payload
      has no `CallStatus`. */
  lemma MissingClassThrows(call: WebhookCall, key: string, jobs: map<string, string>, knownClasses: set<string>)
    requires Truthy(TypeAt(call, key))
    requires DetermineJobClass(jobs, TypeAt(call, key).value) != ""
    requires DetermineJobClass(jobs, TypeAt(call, key).value) !in knownClasses
    ensures var e := HandleEffects(call, key, jobs, knownClasses);
      && e.queued == [] && |e.events| == 1
      && e.thrown == Some(JobClassDoesNotExist(DetermineJobClass(jobs, TypeAt(call, key).value), call))
      && ("CallStatus" !in call.payload ==> e.thrown == Some(UndefinedArrayKey("CallStatus")))
  {
  }

  /** Routing ignores case: two types equal up to ASCII case fire the same event
      and select the same job. */
  lemma RoutingIgnoresCase(jobs: map<string, string>, a: string, b: string)
    requires Lower(a) == Lower(b)
    ensures DetermineEventKey(a) == DetermineEventKey(b)
    ensures DetermineJobClass(jobs, a) == DetermineJobClass(jobs, b)
  {
    LowerReplaceDotsCommute(a);
    LowerReplaceDotsCommute(b);
  }

  /** A `jobs` entry whose name holds an upper-case letter or a dot is never
      selected, whatever the type. */
  lemma UnreachableJobEntries(name: string, eventType: string)
    requires !IsLowerCase(name) || '.' in name
    ensures Lower(ReplaceDots(eventType)) != name
  {
  }

  /** With the published defaults no job is ever queued. */
  lemma DefaultsQueueNothing(secret: Option<string>, call: WebhookCall, key: string, knownClasses: set<string>)
    ensures HandleEffects(call, key, Config.Defaults(secret).jobs, knownClasses).queued == []
  {
  }

  /** `initiated` configured to an existing class: the event
      `twilio-webhooks::initiated` fires and that class is queued with the call,
      for `Initiated` as for `initiated`. */
  lemma InitiatedCallIsRouted(call: WebhookCall, jobClass: string)
    requires call.payload == map["CallStatus" := "Initiated", "key" := "value"]
    requires jobClass != ""
    ensures HandleEffects(call, DefaultKey, map["initiated" := jobClass], {jobClass})
      == Effects([FiredEvent("twilio-webhooks::initiated", call)], [QueuedJob(jobClass, call)], None)
  {
    assert TypeAt(call, DefaultKey) == Some("Initiated");
    assert Lower("Initiated") == "initiated";
    assert ReplaceDots("Initiated") == "Initiated";
    assert DetermineEventKey("Initiated") == "twilio-webhooks::" + "initiated" == "twilio-webhooks::initiated";
    assert DetermineJobClass(map["initiated" := jobClass], "Initiated") == jobClass;
  }
}
