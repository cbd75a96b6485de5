/** The base `Check` construct: merging the session's defaults into a check's
    properties, building the check from them, deriving one alert channel
    subscription per alert channel, and synthesizing the record that is sent
    to the deploy endpoint. */
module Checks {
  import opened JsValues
  import opened Constructs

  /** The construct type every check registers under. */
  const CHECKLY_TYPE := "checks"

  /** Prefix of the logical id of a subscription created by a check. */
  const SUBSCRIPTION_PREFIX := "check-alert-channel-subscription#"

  /** A properties object: the keys it holds and their values. */
  type Props = map<string, Value>

  /** Reading `props[key]` in JavaScript: a missing key reads as `undefined`. */
  function Get(props: Props, key: string): Value {
    if key in props then props[key] else Undef
  }

  // ---------------------------------------------------------------------------
  // Default merge

  /** The properties after the session defaults are merged in: when there are
      no defaults nothing changes; otherwise every key of the defaults keeps
      its own value if that is present and takes the default if not, and all
      other keys are left as they were. */
  function MergedProps(props: Props, checkDefaults: Nullable<Props>): (r: Props)
    ensures checkDefaults.IsNullish() ==> r == props
    ensures checkDefaults.Present? ==> r.Keys == props.Keys + checkDefaults.value.Keys
    ensures checkDefaults.Present? ==>
      forall k :: k in checkDefaults.value ==> r[k] == Coalesce(Get(props, k), checkDefaults.value[k])
    ensures forall k :: k in props && !(checkDefaults.Present? && k in checkDefaults.value) ==> r[k] == props[k]
    ensures Conforms(props) && (checkDefaults.Present? ==> Conforms(checkDefaults.value)) ==> Conforms(r)
  {
    match checkDefaults
    case Present(defaults) => MergeOver(props, defaults)
    case _ => props
  }

  /** The merge over the keys of `defaults`, which need not be all of them
      (the merge loop below is part-way through). */
  function MergeOver(props: Props, defaults: Props): Props {
    map k | k in props.Keys + defaults.Keys ::
      if k in defaults then Coalesce(Get(props, k), defaults[k]) else props[k]
  }

  /** Merging one more key of the defaults into a partial merge. */
  lemma MergeOverStep(props: Props, done: Props, k: string, v: Value)
    requires k !in done
    ensures MergeOver(props, done)[k := Coalesce(Get(MergeOver(props, done), k), v)]
         == MergeOver(props, done[k := v])
  {
  }

  /** Reading any key after the merge: a key of the defaults reads as its own
      value `??` the default, any other key reads as before. */
  lemma MergedRead(props: Props, checkDefaults: Nullable<Props>, k: string)
    ensures checkDefaults.Present? && k in checkDefaults.value ==>
      Get(MergedProps(props, checkDefaults), k) == Coalesce(Get(props, k), checkDefaults.value[k])
    ensures !(checkDefaults.Present? && k in checkDefaults.value) ==>
      Get(MergedProps(props, checkDefaults), k) == Get(props, k)
  {
  }

  /** The merge is decided by presence, not by truthiness: a value that is
      present stays, even `false`, `0` or `''`, where `||` would have taken
      the default. */
  lemma PresentValuesSurvive(props: Props, checkDefaults: Nullable<Props>, k: string)
    requires k in props && !props[k].IsNullish()
    ensures Get(MergedProps(props, checkDefaults), k) == props[k]
    ensures checkDefaults.Present? && k in checkDefaults.value && props[k].IsFalsy() ==>
      Or(props[k], checkDefaults.value[k]) == checkDefaults.value[k]
  {
  }

  /** Merging the same defaults a second time changes nothing. */
  lemma MergeIdempotent(props: Props, checkDefaults: Nullable<Props>)
    ensures MergedProps(MergedProps(props, checkDefaults), checkDefaults) == MergedProps(props, checkDefaults)
  {
  }

  // ---------------------------------------------------------------------------
  // The shape of `CheckProps`

  /** What the TypeScript types `CheckProps` and the configuration defaults
      allow under each key; keys outside `CheckProps` may hold anything. */
  datatype Kind =
    | StringKind | BoolKind | NumberKind | StringListKind | EnvListKind | RefKind | ChannelListKind | AnyKind

  function KindOf(key: string): Kind {
    if key in {"name", "runtimeId"} then StringKind
    else if key in {"activated", "muted", "doubleCheck", "shouldFail"} then BoolKind
    else if key == "frequency" then NumberKind
    else if key in {"locations", "privateLocations", "tags"} then StringListKind
    else if key == "environmentVariables" then EnvListKind
    else if key == "groupId" then RefKind
    else if key == "alertChannels" then ChannelListKind
    else AnyKind
  }

  /** A value fits a kind when it is absent or has that kind's shape; `name`
      is no exception, since nothing checks it at run time. */
  predicate Fits(v: Value, kind: Kind) {
    v.IsNullish() ||
    match kind
    case StringKind => v.Str?
    case BoolKind => v.Bool?
    case NumberKind => v.Num?
    case StringListKind => v.StrList?
    case EnvListKind => v.EnvList?
    case RefKind => v.GroupRef?
    case ChannelListKind => v.ChannelList?
    case AnyKind => true
  }

  predicate Conforms(props: Props) {
    forall k :: k in props ==> Fits(props[k], KindOf(k))
  }

  /** The typed view of properties of the right shapes, the TypeScript
      interface `CheckProps`. */
  datatype CheckProps = CheckProps(
    name: Nullable<string>,
    activated: Nullable<bool>,
    muted: Nullable<bool>,
    doubleCheck: Nullable<bool>,
    shouldFail: Nullable<bool>,
    runtimeId: Nullable<string>,
    locations: Nullable<seq<string>>,
    privateLocations: Nullable<seq<string>>,
    tags: Nullable<seq<string>>,
    frequency: Nullable<real>,
    environmentVariables: Nullable<seq<EnvironmentVariable>>,
    groupId: Nullable<Ref>,
    alertChannels: Nullable<seq<AlertChannel>>)

  /** Reads each key of `CheckProps` from a properties object. */
  function TypedProps(p: Props): CheckProps
    requires Conforms(p)
  {
    FieldsFit(p);
    CheckProps(
      AsString(Get(p, "name")),
      AsBool(Get(p, "activated")),
      AsBool(Get(p, "muted")),
      AsBool(Get(p, "doubleCheck")),
      AsBool(Get(p, "shouldFail")),
      AsString(Get(p, "runtimeId")),
      AsStrings(Get(p, "locations")),
      AsStrings(Get(p, "privateLocations")),
      AsStrings(Get(p, "tags")),
      AsNumber(Get(p, "frequency")),
      AsEnvVars(Get(p, "environmentVariables")),
      AsRef(Get(p, "groupId")),
      AsChannels(Get(p, "alertChannels")))
  }

  /** Under every key of `CheckProps`, properties of the right shapes hold a
      value of that key's shape or nothing. */
  lemma FieldsFit(p: Props)
    requires Conforms(p)
    ensures Fits(Get(p, "name"), StringKind) && Fits(Get(p, "runtimeId"), StringKind)
    ensures Fits(Get(p, "activated"), BoolKind) && Fits(Get(p, "muted"), BoolKind)
    ensures Fits(Get(p, "doubleCheck"), BoolKind) && Fits(Get(p, "shouldFail"), BoolKind)
    ensures Fits(Get(p, "frequency"), NumberKind)
    ensures Fits(Get(p, "locations"), StringListKind) && Fits(Get(p, "privateLocations"), StringListKind)
    ensures Fits(Get(p, "tags"), StringListKind)
    ensures Fits(Get(p, "environmentVariables"), EnvListKind)
    ensures Fits(Get(p, "groupId"), RefKind)
    ensures Fits(Get(p, "alertChannels"), ChannelListKind)
  {
  }

  /** The typed reading of an absent value. */
  function Absent<T>(v: Value): Nullable<T> {
    if v.Nil? then Null else Undefined
  }

  function AsString(v: Value): Nullable<string>
    requires Fits(v, StringKind)
  {
    if v.Str? then Present(v.s) else Absent(v)
  }

  function AsBool(v: Value): Nullable<bool>
    requires Fits(v, BoolKind)
  {
    if v.Bool? then Present(v.b) else Absent(v)
  }

  function AsNumber(v: Value): Nullable<real>
    requires Fits(v, NumberKind)
  {
    if v.Num? then Present(v.n) else Absent(v)
  }

  function AsStrings(v: Value): Nullable<seq<string>>
    requires Fits(v, StringListKind)
  {
    if v.StrList? then Present(v.items) else Absent(v)
  }

  function AsEnvVars(v: Value): Nullable<seq<EnvironmentVariable>>
    requires Fits(v, EnvListKind)
  {
    if v.EnvList? then Present(v.vars) else Absent(v)
  }

  function AsRef(v: Value): Nullable<Ref>
    requires Fits(v, RefKind)
  {
    if v.GroupRef? then Present(v.group) else Absent(v)
  }

  function AsChannels(v: Value): Nullable<seq<AlertChannel>>
    requires Fits(v, ChannelListKind)
  {
    if v.ChannelList? then Present(v.channels) else Absent(v)
  }

  // ---------------------------------------------------------------------------
  // Alert channel subscriptions

  /** The logical id of the subscription of check `checkId` to channel
      `channelId`. */
  function SubscriptionId(checkId: string, channelId: string): (id: string)
    ensures |id| == |SUBSCRIPTION_PREFIX| + |checkId| + 1 + |channelId|
  {
    SUBSCRIPTION_PREFIX + checkId + "#" + channelId
  }

  /** The position of the first `c` in `s`, or `|s|` when there is none. */
  function IndexOf(s: string, c: char): (i: nat)
    ensures i <= |s|
    ensures i < |s| ==> s[i] == c
    ensures forall j :: 0 <= j < i ==> s[j] != c
  {
    if s == [] then 0
    else if s[0] == c then 0
    else 1 + IndexOf(s[1..], c)
  }

  /** Splits a subscription id back into the check id and the channel id,
      taking the check id to end at the first `#` after the prefix. */
  function ParseSubscriptionId(id: string): Nullable<(string, string)> {
    var p := |SUBSCRIPTION_PREFIX|;
    if |id| < p || id[..p] != SUBSCRIPTION_PREFIX then Undefined
    else
      var rest := id[p..];
      var i := IndexOf(rest, '#');
      if i == |rest| then Undefined else Present((rest[..i], rest[i + 1..]))
  }

  /** When the check id holds no `#`, the subscription id determines both ids. */
  lemma SubscriptionIdRoundTrip(checkId: string, channelId: string)
    requires '#' !in checkId
    ensures ParseSubscriptionId(SubscriptionId(checkId, channelId)) == Present((checkId, channelId))
  {
    var id := SubscriptionId(checkId, channelId);
    var p := |SUBSCRIPTION_PREFIX|;
    assert id[..p] == SUBSCRIPTION_PREFIX;
    var rest := id[p..];
    assert rest == checkId + "#" + channelId;
    var i := IndexOf(rest, '#');
    assert forall j :: 0 <= j < |checkId| ==> rest[j] == checkId[j];
    assert rest[|checkId|] == '#';
    assert i == |checkId|;
    assert rest[..i] == checkId;
    assert rest[i + 1..] == channelId;
  }

  lemma SubscriptionIdInjective(c1: string, a1: string, c2: string, a2: string)
    requires '#' !in c1 && '#' !in c2
    requires SubscriptionId(c1, a1) == SubscriptionId(c2, a2)
    ensures c1 == c2 && a1 == a2
  {
    SubscriptionIdRoundTrip(c1, a1);
    SubscriptionIdRoundTrip(c2, a2);
  }

  /** Ids are joined with `#` without escaping, so a check id holding `#`
      can give two different pairs the same subscription id. */
  lemma SubscriptionIdAmbiguous()
    ensures SubscriptionId("a#b", "c") == SubscriptionId("a", "b#c")
  {
  }

  /** The subscription of check `checkId` to `channel`. */
  function SubscriptionFor(checkId: string, channel: AlertChannel): (s: AlertChannelSubscription)
    ensures s.logicalId == SubscriptionId(checkId, channel.logicalId)
    ensures s.alertChannelId == Ref(channel.logicalId) && s.checkId == Ref(checkId)
    ensures s.activated
  {
    AlertChannelSubscription(SubscriptionId(checkId, channel.logicalId), Ref(channel.logicalId), Ref(checkId), true)
  }

  /** The registry entries created for `channels`, in their order. */
  function SubscriptionsFor(checkId: string, channels: seq<AlertChannel>): (r: seq<Resource>)
    ensures |r| == |channels|
  {
    if channels == [] then []
    else
      SubscriptionsFor(checkId, channels[..|channels| - 1])
        + [SubscriptionResource(SubscriptionFor(checkId, channels[|channels| - 1]))]
  }

  /** The i-th entry is the subscription to the i-th channel. */
  lemma {:induction false} SubscriptionsForAt(checkId: string, channels: seq<AlertChannel>, i: nat)
    requires i < |channels|
    ensures SubscriptionsFor(checkId, channels)[i] == SubscriptionResource(SubscriptionFor(checkId, channels[i]))
  {
    var n := |channels|;
    if i < n - 1 {
      SubscriptionsForAt(checkId, channels[..n - 1], i);
    }
  }

  /** One subscription per channel: when the check id holds no `#` and the
      channels have distinct ids, the subscriptions have distinct ids. */
  lemma SubscriptionIdsDistinct(checkId: string, channels: seq<AlertChannel>, i: nat, j: nat)
    requires '#' !in checkId
    requires i < |channels| && j < |channels| && i != j
    requires channels[i].logicalId != channels[j].logicalId
    ensures SubscriptionsFor(checkId, channels)[i].LogicalId() != SubscriptionsFor(checkId, channels)[j].LogicalId()
  {
    SubscriptionsForAt(checkId, channels, i);
    SubscriptionsForAt(checkId, channels, j);
    if SubscriptionId(checkId, channels[i].logicalId) == SubscriptionId(checkId, channels[j].logicalId) {
      SubscriptionIdInjective(checkId, channels[i].logicalId, checkId, channels[j].logicalId);
    }
  }

  // ---------------------------------------------------------------------------
  // The construct

  /** The caller's properties object, which the default merge updates in place. */
  class PropsObject {
    var entries: Props

    constructor (entries: Props)
      ensures this.entries == entries
    {
      this.entries := entries;
    }
  }

  /** The record a check synthesizes for the deploy endpoint. */
  datatype SynthesizedCheck = SynthesizedCheck(
    name: Nullable<string>,
    activated: Nullable<bool>,
    muted: Nullable<bool>,
    doubleCheck: Nullable<bool>,
    shouldFail: Nullable<bool>,
    runtimeId: Nullable<string>,
    locations: Nullable<seq<string>>,
    privateLocations: Nullable<seq<string>>,
    tags: Nullable<seq<string>>,
    frequency: Nullable<real>,
    groupId: Nullable<Ref>,
    environmentVariables: Nullable<seq<EnvironmentVariable>>,
    checkFilePath: Nullable<string>,
    sourceFile: Nullable<string>)

  class Check {
    const logicalId: string
    var name: Nullable<string>
    var activated: Nullable<bool>
    var muted: Nullable<bool>
    var doubleCheck: Nullable<bool>
    var shouldFail: Nullable<bool>
    var runtimeId: Nullable<string>
    var locations: Nullable<seq<string>>
    var privateLocations: Nullable<seq<string>>
    var tags: Nullable<seq<string>>
    var frequency: Nullable<real>
    var environmentVariables: Nullable<seq<EnvironmentVariable>>
    var groupId: Nullable<Ref>
    var alertChannels: Nullable<seq<AlertChannel>>
    /** The file the check was loaded from, used by the CLI to filter checks. */
    var checkFilePath: Nullable<string>

    /** Registers the check, merges the session defaults into `props` (the
        caller sees the change), then copies every property into its field.
        `environmentVariables` and `alertChannels` become empty lists when
        absent; `name` may stay absent. */
    constructor (logicalId: string, props: PropsObject, session: Session, registry: Registry)
      requires Conforms(props.entries)
      requires session.checkDefaults.Present? ==> Conforms(session.checkDefaults.value)
      modifies props, registry
      ensures this.logicalId == logicalId
      ensures registry.resources == old(registry.resources) + [CheckResource(CHECKLY_TYPE, logicalId)]
      ensures props.entries == MergedProps(old(props.entries), session.checkDefaults)
      ensures Conforms(props.entries)
      ensures var c := TypedProps(props.entries);
        && name == c.name && activated == c.activated && muted == c.muted
        && doubleCheck == c.doubleCheck && shouldFail == c.shouldFail && runtimeId == c.runtimeId
        && locations == c.locations && privateLocations == c.privateLocations && tags == c.tags
        && frequency == c.frequency && groupId == c.groupId
        && environmentVariables == Present(c.environmentVariables.GetOr([]))
        && alertChannels == Present(c.alertChannels.GetOr([]))
      ensures checkFilePath == session.checkFilePath
    {
      this.logicalId := logicalId;
      registry.Register(CheckResource(CHECKLY_TYPE, logicalId));
      ApplyDefaultCheckConfig(props, session);
      var c := TypedProps(props.entries);
      name := c.name;
      activated := c.activated;
      muted := c.muted;
      doubleCheck := c.doubleCheck;
      shouldFail := c.shouldFail;
      locations := c.locations;
      privateLocations := c.privateLocations;
      tags := c.tags;
      frequency := c.frequency;
      runtimeId := c.runtimeId;
      environmentVariables := Present(c.environmentVariables.GetOr([]));
      alertChannels := Present(c.alertChannels.GetOr([]));
      groupId := c.groupId;
      checkFilePath := session.checkFilePath;
    }

    /** Merges the session defaults into `props`, key by key over the keys of
        the defaults, unless the session has no defaults. */
    static method ApplyDefaultCheckConfig(props: PropsObject, session: Session)
      modifies props
      ensures props.entries == MergedProps(old(props.entries), session.checkDefaults)
    {
      if session.checkDefaults.IsNullish() {
        return;
      }
      var defaults := session.checkDefaults.value;
      ghost var original := props.entries;
      var pending := defaults.Keys;
      ghost var done: Props := map[];
      assert MergeOver(original, done) == original;
      while pending != {}
        invariant pending == defaults.Keys - done.Keys
        invariant done.Keys <= defaults.Keys
        invariant forall k :: k in done ==> done[k] == defaults[k]
        invariant props.entries == MergeOver(original, done)
        decreases pending
      {
        var key :| key in pending;
        MergeOverStep(original, done, key, defaults[key]);
        props.entries := props.entries[key := Coalesce(Get(props.entries, key), defaults[key])];
        pending := pending - {key};
        done := done[key := defaults[key]];
      }
      forall k | k in defaults.Keys
        ensures k in done.Keys
      {
        assert k !in pending;
      }
      assert done == defaults;
    }

    /** Registers one subscription per alert channel, in list order; the
        check itself is not changed. */
    method AddSubscriptions(registry: Registry)
      modifies registry
      ensures alertChannels.IsNullish() ==> registry.resources == old(registry.resources)
      ensures alertChannels.Present? ==>
        registry.resources == old(registry.resources) + SubscriptionsFor(logicalId, alertChannels.value)
    {
      if alertChannels.IsNullish() {
        return;
      }
      var channels := alertChannels.value;
      var i := 0;
      while i < |channels|
        invariant 0 <= i <= |channels|
        invariant registry.resources == old(registry.resources) + SubscriptionsFor(logicalId, channels[..i])
      {
        registry.Register(SubscriptionResource(SubscriptionFor(logicalId, channels[i])));
        assert channels[..i + 1][..i] == channels[..i];
        i := i + 1;
      }
      assert channels[..i] == channels;
    }

    /** The record sent to the deploy endpoint: every property field as it
        stands, the file path twice (as `__checkFilePath` and `sourceFile`),
        and no alert channels, which are deployed as subscriptions. */
    function Synthesize(): (r: SynthesizedCheck)
      reads this
      ensures r.name == name && r.activated == activated && r.muted == muted
      ensures r.doubleCheck == doubleCheck && r.shouldFail == shouldFail && r.runtimeId == runtimeId
      ensures r.locations == locations && r.privateLocations == privateLocations && r.tags == tags
      ensures r.frequency == frequency && r.groupId == groupId
      ensures r.environmentVariables == environmentVariables
      ensures r.checkFilePath == checkFilePath && r.sourceFile == checkFilePath
    {
      SynthesizedCheck(
        name, activated, muted, doubleCheck, shouldFail, runtimeId,
        locations, privateLocations, tags, frequency, groupId,
        environmentVariables, checkFilePath, checkFilePath)
    }
  }

  // ---------------------------------------------------------------------------
  // Clients

  /** A check built from `props` in `session` synthesizes to its merged
      properties: each field is the caller's value when present and the
      default otherwise, environment variables are never absent, and the
      source file is the session's check file path. */
  method SynthesizeNewCheck(logicalId: string, props: Props, session: Session) returns (r: SynthesizedCheck)
    requires Conforms(props)
    requires session.checkDefaults.Present? ==> Conforms(session.checkDefaults.value)
    ensures var c := TypedProps(MergedProps(props, session.checkDefaults));
      && r.name == c.name && r.activated == c.activated && r.muted == c.muted
      && r.doubleCheck == c.doubleCheck && r.shouldFail == c.shouldFail && r.runtimeId == c.runtimeId
      && r.locations == c.locations && r.privateLocations == c.privateLocations && r.tags == c.tags
      && r.frequency == c.frequency && r.groupId == c.groupId
      && r.environmentVariables == Present(c.environmentVariables.GetOr([]))
    ensures r.checkFilePath == session.checkFilePath && r.sourceFile == session.checkFilePath
  {
    var obj := new PropsObject(props);
    var registry := new Registry();
    var check := new Check(logicalId, obj, session, registry);
    r := check.Synthesize();
  }

  /** Construction does not reject a check whose name is missing after the
      defaults are merged: the name is simply left absent. */
  method NameMayStayMissing(logicalId: string, props: Props, session: Session) returns (name: Nullable<string>)
    requires Conforms(props)
    requires session.checkDefaults.Present? ==> Conforms(session.checkDefaults.value)
    requires Get(props, "name").IsNullish()
    requires session.checkDefaults.Present? ==> Get(session.checkDefaults.value, "name").IsNullish()
    ensures name.IsNullish()
  {
    var obj := new PropsObject(props);
    var registry := new Registry();
    var check := new Check(logicalId, obj, session, registry);
    MergedRead(props, session.checkDefaults, "name");
    name := check.name;
  }

  /** The subscriptions for channels `email` and `slack` of check
      `api-check`, spelled out. */
  lemma TwoChannelSubscriptionIds()
    ensures var subs := SubscriptionsFor("api-check", [AlertChannel("email"), AlertChannel("slack")]);
      && |subs| == 2
      && subs[0].LogicalId() == "check-alert-channel-subscription#api-check#email"
      && subs[1].LogicalId() == "check-alert-channel-subscription#api-check#slack"
  {
    var channels := [AlertChannel("email"), AlertChannel("slack")];
    SubscriptionsForAt("api-check", channels, 0);
    SubscriptionsForAt("api-check", channels, 1);
  }

  /** A check with two alert channels registers exactly two subscriptions,
      with ids built from the check's and each channel's logical id. */
  method SubscribeTwoChannels() returns (added: seq<Resource>)
    ensures |added| == 2
    ensures added[0].LogicalId() == "check-alert-channel-subscription#api-check#email"
    ensures added[1].LogicalId() == "check-alert-channel-subscription#api-check#slack"
  {
    var registry := new Registry();
    var channels := [AlertChannel("email"), AlertChannel("slack")];
    var entries := map["name" := Str("API"), "alertChannels" := ChannelList(channels)];
    assert KindOf("alertChannels") == ChannelListKind;
    assert Conforms(entries);
    var props := new PropsObject(entries);
    var check := new Check("api-check", props, Session(Undefined, Undefined), registry);
    assert check.alertChannels == Present(channels);
    var before := registry.resources;
    check.AddSubscriptions(registry);
    added := registry.resources[|before|..];
    assert added == SubscriptionsFor("api-check", channels);
    TwoChannelSubscriptionIds();
  }

  /** A check given no alert channels registers no subscriptions. */
  method NoChannelsNoSubscriptions() returns (added: seq<Resource>)
    ensures added == []
  {
    var registry := new Registry();
    var props := new PropsObject(map["name" := Str("Bare")]);
    var check := new Check("bare-check", props, Session(Undefined, Undefined), registry);
    var before := registry.resources;
    check.AddSubscriptions(registry);
    added := registry.resources[|before|..];
  }

  /** Adding the subscriptions of a check twice registers every subscription
      twice, under the same id: the operation is not idempotent. */
  method SubscribeTwice(logicalId: string, channels: seq<AlertChannel>) returns (added: seq<Resource>)
    ensures added == SubscriptionsFor(logicalId, channels) + SubscriptionsFor(logicalId, channels)
    ensures forall i :: 0 <= i < |channels| ==> added[i].LogicalId() == added[|channels| + i].LogicalId()
  {
    var registry := new Registry();
    var entries := map["alertChannels" := ChannelList(channels)];
    assert KindOf("alertChannels") == ChannelListKind;
    assert Conforms(entries);
    var props := new PropsObject(entries);
    var check := new Check(logicalId, props, Session(Undefined, Undefined), registry);
    assert check.alertChannels == Present(channels);
    var before := registry.resources;
    check.AddSubscriptions(registry);
    check.AddSubscriptions(registry);
    added := registry.resources[|before|..];
    assert added == SubscriptionsFor(logicalId, channels) + SubscriptionsFor(logicalId, channels);
  }
}
