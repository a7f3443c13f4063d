/**
  Resolving each owner's effective configuration (annotation merged with a named
  override) and expanding it into watch subscriptions, one per resource kind and
  selected namespace.
*/
module InformerCreator {
  import opened Wrappers
  import opened Errors
  import opened Seqs
  import opened JavaStrings
  import opened Annotations
  import opened InformerConfiguration
  import opened ConfigurationProperty
  import opened KubeClientFactory
  import AnnotationValidator
  import Handler = IndexInformerResHandler

  /** The smallest resync period an informer is created with, in milliseconds. */
  const MinResyncPeriod: int := 1000

  // ---------------------------------------------------------------------------
  // Choosing the override

  /**
    `configurationMap.getOrDefault(informer.name(), configurationMap.get("default"))`:
    the entry for the owner's configuration name, else the "default" entry, else null
    (which the merge then dereferences).
  */
  function SelectOverride(config: map<string, Config>, name: string): (r: Result<Config, Error>)
    ensures name in config ==> r == Success(config[name])
    ensures name !in config && DefaultName in config ==> r == Success(config[DefaultName])
    ensures r.Failure? <==> name !in config && DefaultName !in config
  {
    if name in config then Success(config[name])
    else if DefaultName in config then Success(config[DefaultName])
    else Failure(NoConfiguration(name))
  }

  /** Once `postConstruct` has run, every owner finds an override. */
  lemma OverrideFoundAfterPostConstruct(config: map<string, Config>, name: string)
    ensures SelectOverride(PostConstruct(config), name).Success?
    ensures name in config ==> SelectOverride(PostConstruct(config), name) == Success(config[name])
  {
  }

  // ---------------------------------------------------------------------------
  // Parsing annotation arrays

  /** Every entry has a key and a value, so `split("=")[1]` exists. */
  predicate AllParsable(entries: seq<string>) {
    forall i :: 0 <= i < |entries| ==> |JavaSplit(entries[i])| >= 2
  }

  /** The keys of all entries. */
  function KeySet(entries: seq<string>): set<string>
    requires AllParsable(entries)
  {
    set i | 0 <= i < |entries| :: LabelKey(entries[i])
  }

  /**
    Whether `toMap` can collect `entries` after the keys of `acc`: every entry has a
    value and every key is new.
  */
  predicate Collectable(acc: map<string, string>, entries: seq<string>) {
    && AllParsable(entries)
    && AnnotationValidator.HasDistinctKeys(entries)
    && forall i :: 0 <= i < |entries| ==> LabelKey(entries[i]) !in acc
  }

  /** Collecting a first entry leaves the rest to collect after its key. */
  lemma CollectableStep(acc: map<string, string>, entries: seq<string>)
    requires entries != [] && |JavaSplit(entries[0])| >= 2
    requires LabelKey(entries[0]) !in acc
    ensures var key := LabelKey(entries[0]);
      Collectable(acc, entries) <==> Collectable(acc[key := JavaSplit(entries[0])[1]], entries[1..])
    ensures AllParsable(entries[1..]) ==> KeySet(entries) == {LabelKey(entries[0])} + KeySet(entries[1..])
  {
    var acc' := acc[LabelKey(entries[0]) := JavaSplit(entries[0])[1]];
    if Collectable(acc, entries) {
      CollectableTail(acc, entries);
    }
    if Collectable(acc', entries[1..]) {
      CollectableCons(acc, entries);
    }
    if AllParsable(entries[1..]) {
      forall i | 0 <= i < |entries| ensures |JavaSplit(entries[i])| >= 2 {
        if i > 0 { assert entries[i] == entries[1..][i - 1]; }
      }
      KeySetCons(entries);
    }
  }

  /** What is collectable stays collectable after its first entry is collected. */
  lemma CollectableTail(acc: map<string, string>, entries: seq<string>)
    requires entries != [] && Collectable(acc, entries)
    ensures Collectable(acc[LabelKey(entries[0]) := JavaSplit(entries[0])[1]], entries[1..])
  {
    var rest := entries[1..];
    var acc' := acc[LabelKey(entries[0]) := JavaSplit(entries[0])[1]];
    forall i | 0 <= i < |rest| ensures |JavaSplit(rest[i])| >= 2 && LabelKey(rest[i]) !in acc' {
      assert rest[i] == entries[i + 1];
      assert LabelKey(entries[i + 1]) != LabelKey(entries[0]);
    }
    forall i, j | 0 <= i < j < |rest| ensures LabelKey(rest[i]) != LabelKey(rest[j]) {
      assert rest[i] == entries[i + 1] && rest[j] == entries[j + 1];
    }
  }

  /** A collectable first entry followed by entries collectable after it is collectable. */
  lemma CollectableCons(acc: map<string, string>, entries: seq<string>)
    requires entries != [] && |JavaSplit(entries[0])| >= 2
    requires LabelKey(entries[0]) !in acc
    requires Collectable(acc[LabelKey(entries[0]) := JavaSplit(entries[0])[1]], entries[1..])
    ensures Collectable(acc, entries)
  {
    var rest := entries[1..];
    forall i | 0 < i < |entries| ensures |JavaSplit(entries[i])| >= 2 && LabelKey(entries[i]) !in acc
      && LabelKey(entries[i]) != LabelKey(entries[0])
    {
      assert entries[i] == rest[i - 1];
    }
    forall i, j | 0 <= i < j < |entries| ensures LabelKey(entries[i]) != LabelKey(entries[j]) {
      assert entries[j] == rest[j - 1];
      if i > 0 { assert entries[i] == rest[i - 1]; }
    }
  }

  /** The keys of a list are the first key and the keys of the rest. */
  lemma KeySetCons(entries: seq<string>)
    requires entries != [] && AllParsable(entries)
    ensures AllParsable(entries[1..])
    ensures KeySet(entries) == {LabelKey(entries[0])} + KeySet(entries[1..])
  {
    AllParsableTail(entries);
    KeySetHeadOrTail(entries);
    KeySetOfTail(entries);
  }

  /** The entries after the first of a parsable list are parsable. */
  lemma AllParsableTail(entries: seq<string>)
    requires entries != [] && AllParsable(entries)
    ensures AllParsable(entries[1..])
  {
    forall i | 0 <= i < |entries[1..]| ensures |JavaSplit(entries[1..][i])| >= 2 {
      assert entries[1..][i] == entries[i + 1];
    }
  }

  /** Every key of a list is its first key or a key of the rest. */
  lemma KeySetHeadOrTail(entries: seq<string>)
    requires entries != [] && AllParsable(entries) && AllParsable(entries[1..])
    ensures KeySet(entries) <= {LabelKey(entries[0])} + KeySet(entries[1..])
  {
    var rest := entries[1..];
    forall k | k in KeySet(entries) ensures k == LabelKey(entries[0]) || k in KeySet(rest) {
      var i :| 0 <= i < |entries| && LabelKey(entries[i]) == k;
      if i > 0 {
        assert entries[i] == rest[i - 1];
        assert LabelKey(rest[i - 1]) in KeySet(rest);
      }
    }
  }

  /** The first key and every key of the rest are keys of the list. */
  lemma KeySetOfTail(entries: seq<string>)
    requires entries != [] && AllParsable(entries) && AllParsable(entries[1..])
    ensures {LabelKey(entries[0])} + KeySet(entries[1..]) <= KeySet(entries)
  {
    var rest := entries[1..];
    assert LabelKey(entries[0]) in KeySet(entries);
    forall k | k in KeySet(rest) ensures k in KeySet(entries) {
      var i :| 0 <= i < |rest| && LabelKey(rest[i]) == k;
      assert rest[i] == entries[i + 1];
      assert LabelKey(entries[i + 1]) in KeySet(entries);
    }
  }

  /**
    `Collectors.toMap(e -> e.split("=")[0], e -> e.split("=")[1])` over `entries`,
    continuing from the map `acc` already collected: an entry without a value or with
    a key already collected throws.
  */
  function ParseLabelsFrom(acc: map<string, string>, entries: seq<string>): (r: Result<map<string, string>, Error>)
    decreases |entries|
    ensures r.Success? <==> Collectable(acc, entries)
    ensures r.Success? ==> r.value.Keys == acc.Keys + KeySet(entries)
    ensures r.Success? ==> forall k :: k in acc ==> r.value[k] == acc[k]
    ensures r.Failure? ==> r.error.LabelIndexOutOfBounds? || r.error.DuplicateMapKey?
  {
    if entries == [] then Success(acc)
    else
      var parts := JavaSplit(entries[0]);
      if |parts| < 2 then Failure(LabelIndexOutOfBounds(entries[0]))
      else if parts[0] in acc then Failure(DuplicateMapKey(parts[0]))
      else
        CollectableStep(acc, entries);
        ParseLabelsFrom(acc[parts[0] := parts[1]], entries[1..])
  }

  /** Each collected key maps to the value its entry was split into. */
  lemma {:induction false} ParseLabelsFromValues(acc: map<string, string>, entries: seq<string>)
    requires Collectable(acc, entries)
    ensures ParseLabelsFrom(acc, entries).Success?
    ensures forall i :: 0 <= i < |entries| ==>
      ParseLabelsFrom(acc, entries).value[LabelKey(entries[i])] == JavaSplit(entries[i])[1]
    decreases |entries|
  {
    if entries != [] {
      var parts := JavaSplit(entries[0]);
      var acc' := acc[parts[0] := parts[1]];
      var rest := entries[1..];
      CollectableStep(acc, entries);
      ParseLabelsFromValues(acc', rest);
      var r := ParseLabelsFrom(acc', rest);
      assert ParseLabelsFrom(acc, entries) == r;
      forall i | 0 <= i < |entries| ensures r.value[LabelKey(entries[i])] == JavaSplit(entries[i])[1] {
        if i > 0 { assert entries[i] == rest[i - 1]; }
      }
    }
  }

  /** An annotation array of `key=value` strings as a map. */
  function ParseLabels(entries: seq<string>): Result<map<string, string>, Error> {
    ParseLabelsFrom(map[], entries)
  }

  /**
    `Set.of(names)`, continuing from the elements `acc` already collected: the first
    element equal to an earlier one throws.
  */
  function NameSetFrom(acc: set<string>, names: seq<string>): (r: Result<set<string>, Error>)
    decreases |names|
    ensures r.Success? <==> Distinct(names) && forall i :: 0 <= i < |names| ==> names[i] !in acc
    ensures r.Success? ==> r.value == acc + ToSet(names)
    ensures r.Failure? ==> r.error.DuplicateSetElement?
  {
    if names == [] then Success(acc)
    else if names[0] in acc then Failure(DuplicateSetElement(names[0]))
    else
      var rest := names[1..];
      assert forall i :: 0 < i < |names| ==> names[i] == rest[i - 1];
      assert ToSet(names) == {names[0]} + ToSet(rest);
      assert Distinct(names) ==> forall i :: 0 <= i < |rest| ==> rest[i] != names[0];
      NameSetFrom(acc + {names[0]}, rest)
  }

  /** The namespace names of the annotation as a set. */
  function NameSet(names: seq<string>): Result<set<string>, Error> {
    NameSetFrom({}, names)
  }

  // ---------------------------------------------------------------------------
  // The merge

  /**
    The effective resync period: the override's if it has one, else the annotation's,
    raised to the minimum when smaller.
  */
  function EffectiveResync(configured: Option<int>, annotated: int): (r: int)
    ensures r >= MinResyncPeriod
    ensures var chosen := configured.GetOr(annotated);
      && (chosen < MinResyncPeriod ==> r == MinResyncPeriod)
      && (chosen >= MinResyncPeriod ==> r == chosen)
  {
    var chosen := if configured.Some? then configured.value else annotated;
    if chosen < MinResyncPeriod then MinResyncPeriod else chosen
  }

  /** A resolved period configured again resolves to itself: clamping is idempotent. */
  lemma EffectiveResyncIdempotent(configured: Option<int>, annotated: int, other: int)
    ensures EffectiveResync(Some(EffectiveResync(configured, annotated)), other) == EffectiveResync(configured, annotated)
  {
  }

  /** An owner with its merged configuration and the client that configuration names. */
  datatype InformerContext = InformerContext(owner: Owner, cfg: Config, client: Option<Client>)

  /** Whether a context carries a resync period that respects the minimum. */
  predicate Resolved(ctx: InformerContext) {
    ctx.cfg.resyncPeriod.Some? && ctx.cfg.resyncPeriod.value >= MinResyncPeriod
  }

  /**
    `createInformerContext`: field by field, a non-empty override wins over the
    annotation; annotation label arrays are parsed into maps and nsNames into a set,
    and the resync period is clamped. Parsing errors surface in the order nsLabels,
    resLabels, nsNames.
  */
  function CreateInformerContext(owner: Owner, override: Config, clients: map<string, Client>): (r: Result<InformerContext, Error>)
    ensures r.Failure? <==>
      || (override.nsLabels == map[] && ParseLabels(owner.informer.nsLabels).Failure?)
      || (override.resLabels == map[] && ParseLabels(owner.informer.resLabels).Failure?)
      || (override.nsNames == {} && !Distinct(owner.informer.nsNames))
    ensures override.nsLabels == map[] && ParseLabels(owner.informer.nsLabels).Failure? ==>
      r == Failure(ParseLabels(owner.informer.nsLabels).error)
    ensures (&& (override.nsLabels != map[] || ParseLabels(owner.informer.nsLabels).Success?)
             && override.resLabels == map[] && ParseLabels(owner.informer.resLabels).Failure?) ==>
      r == Failure(ParseLabels(owner.informer.resLabels).error)
    ensures (&& (override.nsLabels != map[] || ParseLabels(owner.informer.nsLabels).Success?)
             && (override.resLabels != map[] || ParseLabels(owner.informer.resLabels).Success?)
             && override.nsNames == {} && NameSet(owner.informer.nsNames).Failure?) ==>
      r == Failure(NameSet(owner.informer.nsNames).error)
    ensures r.Success? ==> r.value.owner == owner && Resolved(r.value)
    ensures r.Success? ==> (r.value.cfg.clientName ==
      if override.clientName != "" then override.clientName else owner.informer.clientName)
    ensures r.Success? ==> (r.value.cfg.nsLabels ==
      if override.nsLabels != map[] then override.nsLabels else ParseLabels(owner.informer.nsLabels).value)
    ensures r.Success? ==> (r.value.cfg.resLabels ==
      if override.resLabels != map[] then override.resLabels else ParseLabels(owner.informer.resLabels).value)
    ensures r.Success? ==> (r.value.cfg.nsNames ==
      if override.nsNames != {} then override.nsNames else ToSet(owner.informer.nsNames))
    ensures r.Success? ==> r.value.cfg.resyncPeriod == Some(EffectiveResync(override.resyncPeriod, owner.informer.resyncPeriod))
    ensures r.Success? ==> r.value.client == GetClient(clients, r.value.cfg.clientName)
  {
    var a := owner.informer;
    var clientName := if override.clientName == "" then a.clientName else override.clientName;
    var nsLabels := if override.nsLabels == map[] then ParseLabels(a.nsLabels) else Success(override.nsLabels);
    if nsLabels.Failure? then Failure(nsLabels.error)
    else
      var resLabels := if override.resLabels == map[] then ParseLabels(a.resLabels) else Success(override.resLabels);
      if resLabels.Failure? then Failure(resLabels.error)
      else
        var resync := EffectiveResync(override.resyncPeriod, a.resyncPeriod);
        var nsNames := if override.nsNames == {} then NameSet(a.nsNames) else Success(override.nsNames);
        if nsNames.Failure? then Failure(nsNames.error)
        else
          var cfg := Config(nsLabels.value, resLabels.value, Some(resync), clientName, nsNames.value);
          Success(InformerContext(owner, cfg, GetClient(clients, clientName)))
  }

  /** An owner that passed the label checks always resolves, whatever the override. */
  lemma {:induction false} ValidatedOwnerResolves(owner: Owner, override: Config, clients: map<string, Client>)
    requires AnnotationValidator.ValidateLabels(owner).Pass?
    ensures CreateInformerContext(owner, override, clients).Success?
  {
    var a := owner.informer;
    assert AllParsable(a.nsLabels) && AllParsable(a.resLabels);
    assert Distinct(a.nsNames) by {
      forall i, j | 0 <= i < j < |a.nsNames| ensures a.nsNames[i] != a.nsNames[j] {
        assert LabelKey(a.nsNames[i]) != LabelKey(a.nsNames[j]);
      }
    }
  }

  /**
    With the no-argument configuration as override, every field comes from the
    annotation: the labels parsed, the names as a set, the period clamped.
  */
  lemma NoArgsOverrideUsesAnnotation(owner: Owner, clients: map<string, Client>)
    requires AnnotationValidator.ValidateLabels(owner).Pass?
    ensures var r := CreateInformerContext(owner, NoArgs, clients);
      && r.Success?
      && r.value.cfg.clientName == owner.informer.clientName
      && r.value.cfg.nsLabels == ParseLabels(owner.informer.nsLabels).value
      && r.value.cfg.resLabels == ParseLabels(owner.informer.resLabels).value
      && r.value.cfg.nsNames == ToSet(owner.informer.nsNames)
      && r.value.cfg.resyncPeriod == Some(EffectiveResync(None, owner.informer.resyncPeriod))
  {
    ValidatedOwnerResolves(owner, NoArgs, clients);
  }

  /**
    A bare `@Informer`, with no configuration entry beyond the "default" one
    `postConstruct` adds, resolves to the default client, a period of 1000, no label
    filters and no explicit names, so it watches every namespace.
  */
  lemma DefaultAnnotationResolves(beanClass: string, ms: seq<WatchMethod>, beans: map<string, Client>, built: Client)
    ensures var r := ContextOf(Owner(beanClass, DefaultAnnotation, ms), PostConstruct(map[]), Init(beans, built));
      && r.Success?
      && r.value.cfg == Config(map[], map[], Some(1000), DefaultName, {})
      && r.value.client.Some? && r.value.client == GetClient(Init(beans, built), DefaultName)
      && NamespaceQueryFor(r.value.cfg) == AllNamespaces
  {
    var o := Owner(beanClass, DefaultAnnotation, ms);
    assert SelectOverride(PostConstruct(map[]), DefaultName) == Success(NoArgs);
    assert ParseLabels([]) == Success(map[]);
    assert NameSet([]) == Success({});
    GetClientAfterInit(beans, built, DefaultName);
  }

  /** An annotation `@Informer(resyncPeriod = 500)` under an override without a period resolves to 1000. */
  lemma SmallResyncIsClamped(owner: Owner, override: Config, clients: map<string, Client>)
    requires owner.informer.resyncPeriod == 500 && override.resyncPeriod == None
    requires CreateInformerContext(owner, override, clients).Success?
    ensures CreateInformerContext(owner, override, clients).value.cfg.resyncPeriod == Some(1000)
  {
  }

  /** Whether an owner declares any `@Watch` method. */
  predicate HasWatchMethods(o: Owner) {
    o.watchMethods != []
  }

  /** The owners `getInformerContextList` keeps: those with at least one `@Watch` method. */
  function WatchingOwners(owners: seq<Owner>): (r: seq<Owner>)
    ensures |r| <= |owners|
    ensures forall o :: o in r <==> o in owners && HasWatchMethods(o)
  {
    Filter(owners, HasWatchMethods)
  }

  /**
    The context `getInformerContextList` builds for one owner: the override its
    configuration name selects, merged into its annotation.
  */
  function ContextOf(o: Owner, config: map<string, Config>, clients: map<string, Client>): (r: Result<InformerContext, Error>)
    ensures r.Success? <==>
      SelectOverride(config, o.informer.name).Success?
      && CreateInformerContext(o, SelectOverride(config, o.informer.name).value, clients).Success?
    ensures r.Success? ==> r.value.owner == o && Resolved(r.value)
    ensures r.Failure? ==> (|| r.error.NoConfiguration? || r.error.LabelIndexOutOfBounds?
                            || r.error.DuplicateMapKey? || r.error.DuplicateSetElement?)
  {
    match SelectOverride(config, o.informer.name)
    case Failure(e) => Failure(e)
    case Success(override) => CreateInformerContext(o, override, clients)
  }

  /** Owner `i` is the first that does not resolve, and `e` is its error. */
  predicate FirstUnresolved(owners: seq<Owner>, config: map<string, Config>, clients: map<string, Client>, i: nat, e: Error)
    requires i < |owners|
  {
    && (forall j :: 0 <= j < i ==> ContextOf(owners[j], config, clients).Success?)
    && ContextOf(owners[i], config, clients) == Failure(e)
  }

  /** The first unresolved owner after a resolved head is the first unresolved owner of the whole list. */
  lemma FirstUnresolvedShift(owners: seq<Owner>, config: map<string, Config>, clients: map<string, Client>, i: nat, e: Error)
    requires owners != [] && ContextOf(owners[0], config, clients).Success?
    requires i < |owners| - 1 && FirstUnresolved(owners[1..], config, clients, i, e)
    ensures FirstUnresolved(owners, config, clients, i + 1, e)
  {
    assert owners[i + 1] == owners[1..][i];
    forall j | 0 <= j < i + 1 ensures ContextOf(owners[j], config, clients).Success? {
      if j > 0 { assert owners[j] == owners[1..][j - 1]; }
    }
  }

  /**
    One context per owner, in order: it succeeds exactly when every owner resolves,
    and otherwise throws what the first unresolved owner throws.
  */
  function ContextsFor(owners: seq<Owner>, config: map<string, Config>, clients: map<string, Client>): (r: Result<seq<InformerContext>, Error>)
    ensures r.Success? <==> forall i :: 0 <= i < |owners| ==> ContextOf(owners[i], config, clients).Success?
    ensures r.Success? ==> |r.value| == |owners|
    ensures r.Success? ==> forall i :: 0 <= i < |owners| ==>
      && r.value[i].owner == owners[i] && Resolved(r.value[i])
      && ContextOf(owners[i], config, clients) == Success(r.value[i])
    ensures r.Failure? ==> exists i :: 0 <= i < |owners| && FirstUnresolved(owners, config, clients, i, r.error)
  {
    if owners == [] then Success([])
    else
      var ctx := ContextOf(owners[0], config, clients);
      if ctx.Failure? then
        assert FirstUnresolved(owners, config, clients, 0, ctx.error);
        Failure(ctx.error)
      else
        var rest := ContextsFor(owners[1..], config, clients);
        assert forall i :: 0 < i < |owners| ==> owners[i] == owners[1..][i - 1];
        if rest.Failure? then
          var i :| 0 <= i < |owners[1..]| && FirstUnresolved(owners[1..], config, clients, i, rest.error);
          FirstUnresolvedShift(owners, config, clients, i, rest.error);
          rest
        else
          Success([ctx.value] + rest.value)
  }

  /**
    `getInformerContextList`: the contexts of the owners that have `@Watch` methods, in
    order. It succeeds exactly when each of those owners resolves; owners without
    `@Watch` methods are never resolved, so they cannot make it fail.
  */
  function GetInformerContextList(owners: seq<Owner>, config: map<string, Config>, clients: map<string, Client>): (r: Result<seq<InformerContext>, Error>)
    ensures r.Success? <==> forall o :: o in owners && HasWatchMethods(o) ==> ContextOf(o, config, clients).Success?
    ensures r.Success? ==> |r.value| == |WatchingOwners(owners)|
    ensures r.Success? ==> forall i :: 0 <= i < |r.value| ==>
      && r.value[i].owner == WatchingOwners(owners)[i] && HasWatchMethods(r.value[i].owner) && Resolved(r.value[i])
      && ContextOf(WatchingOwners(owners)[i], config, clients) == Success(r.value[i])
    ensures r.Failure? ==> exists o :: o in owners && HasWatchMethods(o) && ContextOf(o, config, clients) == Failure(r.error)
    ensures r.Failure? ==> exists i :: (0 <= i < |WatchingOwners(owners)|
      && FirstUnresolved(WatchingOwners(owners), config, clients, i, r.error))
  {
    var watching := WatchingOwners(owners);
    var r := ContextsFor(watching, config, clients);
    AllResolve(watching, config, clients);
    if r.Failure? then
      var i :| 0 <= i < |watching| && FirstUnresolved(watching, config, clients, i, r.error);
      assert watching[i] in watching;
      r
    else r
  }

  /** Every owner of a list resolves exactly when every position of it does. */
  lemma AllResolve(owners: seq<Owner>, config: map<string, Config>, clients: map<string, Client>)
    ensures (forall i :: 0 <= i < |owners| ==> ContextOf(owners[i], config, clients).Success?) <==>
      forall o :: o in owners ==> ContextOf(o, config, clients).Success?
  {
    if forall i :: 0 <= i < |owners| ==> ContextOf(owners[i], config, clients).Success? {
      forall o | o in owners ensures ContextOf(o, config, clients).Success? {
        var i :| 0 <= i < |owners| && owners[i] == o;
      }
    }
  }

  // ---------------------------------------------------------------------------
  // Namespace selection

  /** The namespace query an effective configuration makes, if any. */
  datatype NamespaceQuery =
    | ExplicitNames(names: set<string>)
    | AllNamespaces
    | LabelledNamespaces(labels: map<string, string>)

  /** `getNamespaces`' precedence: explicit names, else all namespaces when no labels, else a label query. */
  function NamespaceQueryFor(cfg: Config): (q: NamespaceQuery)
    ensures q.ExplicitNames? <==> cfg.nsNames != {}
    ensures q.AllNamespaces? <==> cfg.nsNames == {} && cfg.nsLabels == map[]
    ensures q.LabelledNamespaces? <==> cfg.nsNames == {} && cfg.nsLabels != map[]
    ensures q.ExplicitNames? ==> q.names == cfg.nsNames
    ensures q.LabelledNamespaces? ==> q.labels == cfg.nsLabels
  {
    if cfg.nsNames != {} then ExplicitNames(cfg.nsNames)
    else if cfg.nsLabels == map[] then AllNamespaces
    else LabelledNamespaces(cfg.nsLabels)
  }

  /**
    The namespaces to watch. `allNs(c)` and `nsWithLabels(c, labels)` stand for the
    client's namespace list calls; a query on a null client throws.
  */
  function GetNamespaces(cfg: Config, client: Option<Client>,
                         allNs: Client -> set<string>,
                         nsWithLabels: (Client, map<string, string>) -> set<string>): (r: Result<set<string>, Error>)
    ensures cfg.nsNames != {} ==> r == Success(cfg.nsNames)
    ensures cfg.nsNames == {} && client.None? ==> r == Failure(NoClient(cfg.clientName))
    ensures cfg.nsNames == {} && client.Some? && cfg.nsLabels == map[] ==> r == Success(allNs(client.value))
    ensures cfg.nsNames == {} && client.Some? && cfg.nsLabels != map[] ==>
      r == Success(nsWithLabels(client.value, cfg.nsLabels))
  {
    match NamespaceQueryFor(cfg)
    case ExplicitNames(names) => Success(names)
    case AllNamespaces =>
      if client.None? then Failure(NoClient(cfg.clientName)) else Success(allNs(client.value))
    case LabelledNamespaces(labels) =>
      if client.None? then Failure(NoClient(cfg.clientName)) else Success(nsWithLabels(client.value, labels))
  }

  /** Explicit names win over labels: `{"ns1", "ns2"}` is watched as given, with no query. */
  lemma NamesTakePrecedence(cfg: Config, client: Option<Client>,
                            allNs: Client -> set<string>,
                            nsWithLabels: (Client, map<string, string>) -> set<string>)
    requires cfg.nsNames == {"ns1", "ns2"} && cfg.nsLabels != map[]
    ensures NamespaceQueryFor(cfg) == ExplicitNames({"ns1", "ns2"})
    ensures GetNamespaces(cfg, client, allNs, nsWithLabels) == Success({"ns1", "ns2"})
  {
  }

  // ---------------------------------------------------------------------------
  // Subscriptions

  /**
    One informer: a resource kind watched in one namespace through one client, with an
    optional resource-label filter, the resync period it was created with, and the
    resync period and methods its event handler was registered with.
  */
  datatype Subscription = Subscription(
    owner: string,
    resource: TypeName,
    namespace: string,
    labelFilter: Option<map<string, string>>,
    informerResync: int,
    handlerResync: int,
    methods: seq<WatchMethod>,
    client: Client)

  /** The distinct resource kinds of the methods (the keys of `groupingBy(resource)`). */
  function ResourceKinds(ms: seq<WatchMethod>): set<TypeName> {
    set m | m in ms :: m.resource
  }

  /** The methods declared for one resource kind, in declaration order. */
  function MethodsFor(ms: seq<WatchMethod>, resource: TypeName): (r: seq<WatchMethod>)
    ensures forall m :: m in r <==> m in ms && m.resource == resource
  {
    Filter(ms, (m: WatchMethod) => m.resource == resource)
  }

  /**
    `groupingBy` never makes an empty group: a resource kind is a key of the
    grouped methods exactly when some method is declared for it.
  */
  lemma KindsAreGroupKeys(ms: seq<WatchMethod>)
    ensures forall t :: t in ResourceKinds(ms) <==> MethodsFor(ms, t) != []
  {
    forall t ensures t in ResourceKinds(ms) <==> MethodsFor(ms, t) != [] {
      if t in ResourceKinds(ms) {
        var m :| m in ms && m.resource == t;
        assert m in MethodsFor(ms, t);
      }
      if MethodsFor(ms, t) != [] {
        assert MethodsFor(ms, t)[0] in MethodsFor(ms, t);
      }
    }
  }

  /** `createSharedIndexInformer`'s choice: a label filter only for non-empty resource labels. */
  function LabelFilter(resLabels: map<string, string>): (r: Option<map<string, string>>)
    ensures r.Some? <==> resLabels != map[]
    ensures r.Some? ==> r.value == resLabels
  {
    if resLabels == map[] then None else Some(resLabels)
  }

  /** The subscription for one resource kind and one namespace of a context. */
  function SubscriptionFor(ctx: InformerContext, client: Client, resource: TypeName, namespace: string): Subscription
    requires Resolved(ctx)
  {
    var resync := ctx.cfg.resyncPeriod.value;
    Subscription(ctx.owner.beanClass, resource, namespace, LabelFilter(ctx.cfg.resLabels),
                 resync, resync, MethodsFor(ctx.owner.watchMethods, resource), client)
  }

  /** The subscriptions of one owner: one per resource kind and namespace. */
  function OwnerSubscriptions(ctx: InformerContext, client: Client, namespaces: set<string>): (subs: set<Subscription>)
    requires Resolved(ctx)
    ensures forall s :: s in subs ==>
      && s.resource in ResourceKinds(ctx.owner.watchMethods) && s.namespace in namespaces
      && s == SubscriptionFor(ctx, client, s.resource, s.namespace)
  {
    Grid(ctx, client, ResourceKinds(ctx.owner.watchMethods), namespaces)
  }

  /** The subscriptions of one resource kind: one per namespace. */
  function Row(ctx: InformerContext, client: Client, r: TypeName, namespaces: set<string>): set<Subscription>
    requires Resolved(ctx)
  {
    set ns | ns in namespaces :: SubscriptionFor(ctx, client, r, ns)
  }

  /** The subscriptions of a set of resource kinds over a set of namespaces. */
  function Grid(ctx: InformerContext, client: Client, kinds: set<TypeName>, namespaces: set<string>): set<Subscription>
    requires Resolved(ctx)
  {
    set r, ns | r in kinds && ns in namespaces :: SubscriptionFor(ctx, client, r, ns)
  }

  /** One resource kind yields exactly one subscription per namespace. */
  lemma {:induction false} RowCount(ctx: InformerContext, client: Client, r: TypeName, namespaces: set<string>)
    requires Resolved(ctx)
    ensures |Row(ctx, client, r, namespaces)| == |namespaces|
    decreases |namespaces|
  {
    if namespaces != {} {
      var n :| n in namespaces;
      var rest := namespaces - {n};
      RowCount(ctx, client, r, rest);
      assert Row(ctx, client, r, namespaces) == Row(ctx, client, r, rest) + {SubscriptionFor(ctx, client, r, n)};
      assert SubscriptionFor(ctx, client, r, n) !in Row(ctx, client, r, rest);
    }
  }

  /** Removing one kind from the grid removes exactly its row. */
  lemma GridSplit(ctx: InformerContext, client: Client, kinds: set<TypeName>, k: TypeName, namespaces: set<string>)
    requires Resolved(ctx) && k in kinds
    ensures Grid(ctx, client, kinds, namespaces)
         == Grid(ctx, client, kinds - {k}, namespaces) + Row(ctx, client, k, namespaces)
    ensures Grid(ctx, client, kinds - {k}, namespaces) !! Row(ctx, client, k, namespaces)
  {
    var rest := kinds - {k};
    forall x | x in Grid(ctx, client, kinds, namespaces)
      ensures x in Grid(ctx, client, rest, namespaces) + Row(ctx, client, k, namespaces)
    {
      var r, ns :| r in kinds && ns in namespaces && x == SubscriptionFor(ctx, client, r, ns);
      if r == k {
        assert x in Row(ctx, client, k, namespaces);
      } else {
        assert x in Grid(ctx, client, rest, namespaces);
      }
    }
  }

  /** One more row adds one more row's worth. */
  lemma MulSucc(a: nat, b: nat)
    ensures (a + 1) * b == a * b + b
  {
  }

  /** Kinds × namespaces yields |kinds| · |namespaces| distinct subscriptions. */
  lemma {:induction false} GridCount(ctx: InformerContext, client: Client, kinds: set<TypeName>, namespaces: set<string>)
    requires Resolved(ctx)
    ensures |Grid(ctx, client, kinds, namespaces)| == |kinds| * |namespaces|
    decreases |kinds|
  {
    if kinds != {} {
      var k :| k in kinds;
      var rest := kinds - {k};
      GridCount(ctx, client, rest, namespaces);
      RowCount(ctx, client, k, namespaces);
      GridSplit(ctx, client, kinds, k, namespaces);
      MulSucc(|rest|, |namespaces|);
    } else {
      assert Grid(ctx, client, kinds, namespaces) == {};
    }
  }

  /** One owner has exactly |resource kinds| × |namespaces| subscriptions. */
  lemma OwnerSubscriptionCount(ctx: InformerContext, client: Client, namespaces: set<string>)
    requires Resolved(ctx)
    ensures |OwnerSubscriptions(ctx, client, namespaces)| == |ResourceKinds(ctx.owner.watchMethods)| * |namespaces|
  {
    GridCount(ctx, client, ResourceKinds(ctx.owner.watchMethods), namespaces);
  }

  /** Every (resource kind, namespace) pair of an owner has its subscription. */
  lemma OwnerSubscriptionsComplete(ctx: InformerContext, client: Client, namespaces: set<string>, r: TypeName, ns: string)
    requires Resolved(ctx)
    requires r in ResourceKinds(ctx.owner.watchMethods) && ns in namespaces
    ensures SubscriptionFor(ctx, client, r, ns) in OwnerSubscriptions(ctx, client, namespaces)
  {
  }

  /** The namespaces and subscriptions built for one owner. */
  datatype OwnerTopology = OwnerTopology(context: InformerContext, namespaces: set<string>, subscriptions: set<Subscription>)

  /**
    Whether a topology has exactly one subscription per resource kind and namespace of
    its context: there are |kinds| · |namespaces| of them, every pair is covered, and
    each is opened through the context's client with the kind's methods, the resource
    label filter and the resolved resync period.
  */
  predicate WellFormedTopology(t: OwnerTopology) {
    && Resolved(t.context)
    && |t.subscriptions| == |ResourceKinds(t.context.owner.watchMethods)| * |t.namespaces|
    && (forall r, ns :: r in ResourceKinds(t.context.owner.watchMethods) && ns in t.namespaces ==>
      t.context.client.Some? && SubscriptionFor(t.context, t.context.client.value, r, ns) in t.subscriptions)
    && forall s :: s in t.subscriptions ==>
      && s.owner == t.context.owner.beanClass
      && s.resource in ResourceKinds(t.context.owner.watchMethods)
      && s.namespace in t.namespaces
      && t.context.client == Some(s.client)
      && s.methods == MethodsFor(t.context.owner.watchMethods, s.resource)
      && s.informerResync == s.handlerResync == t.context.cfg.resyncPeriod.value
      && (s.labelFilter.Some? <==> t.context.cfg.resLabels != map[])
      && (s.labelFilter.Some? ==> s.labelFilter.value == t.context.cfg.resLabels)
  }

  /** In a well-formed topology no two subscriptions share a resource kind and a namespace. */
  lemma OnePerPair(t: OwnerTopology, s: Subscription, s': Subscription)
    requires WellFormedTopology(t) && s in t.subscriptions && s' in t.subscriptions
    requires s.resource == s'.resource && s.namespace == s'.namespace
    ensures s == s'
  {
  }

  /**
    The body of `createInformers` for one context: select the namespaces, then open a
    subscription per resource kind and namespace. With no namespace nothing is opened
    and nothing fails; it fails only when the namespace query or a subscription needs
    a client the context does not have.
  */
  function BuildOwner(ctx: InformerContext,
                      allNs: Client -> set<string>,
                      nsWithLabels: (Client, map<string, string>) -> set<string>): (r: Result<OwnerTopology, Error>)
    requires Resolved(ctx)
    ensures r.Failure? <==>
      || GetNamespaces(ctx.cfg, ctx.client, allNs, nsWithLabels).Failure?
      || (&& ctx.client.None? && ResourceKinds(ctx.owner.watchMethods) != {}
          && GetNamespaces(ctx.cfg, ctx.client, allNs, nsWithLabels).value != {})
    ensures r.Success? ==> r.value.context == ctx && WellFormedTopology(r.value)
    ensures r.Success? ==> GetNamespaces(ctx.cfg, ctx.client, allNs, nsWithLabels) == Success(r.value.namespaces)
    ensures r.Success? && r.value.namespaces == {} ==> r.value.subscriptions == {}
    ensures r.Failure? ==> r.error == NoClient(ctx.cfg.clientName)
  {
    var namespaces := GetNamespaces(ctx.cfg, ctx.client, allNs, nsWithLabels);
    if namespaces.Failure? then Failure(namespaces.error)
    else if ResourceKinds(ctx.owner.watchMethods) == {} || namespaces.value == {} then
      Success(OwnerTopology(ctx, namespaces.value, {}))
    else if ctx.client.None? then Failure(NoClient(ctx.cfg.clientName))
    else
      var subs := OwnerSubscriptions(ctx, ctx.client.value, namespaces.value);
      OwnerSubscriptionCount(ctx, ctx.client.value, namespaces.value);
      Success(OwnerTopology(ctx, namespaces.value, subs))
  }

  /** A context whose namespace selection comes back empty opens no subscription and does not fail. */
  lemma EmptyNamespacesOpenNothing(ctx: InformerContext,
                                   allNs: Client -> set<string>,
                                   nsWithLabels: (Client, map<string, string>) -> set<string>)
    requires Resolved(ctx)
    requires GetNamespaces(ctx.cfg, ctx.client, allNs, nsWithLabels) == Success({})
    ensures BuildOwner(ctx, allNs, nsWithLabels) == Success(OwnerTopology(ctx, {}, {}))
  {
  }

  /** A context with a client never fails to build. */
  lemma ClientContextBuilds(ctx: InformerContext,
                            allNs: Client -> set<string>,
                            nsWithLabels: (Client, map<string, string>) -> set<string>)
    requires Resolved(ctx) && ctx.client.Some?
    ensures BuildOwner(ctx, allNs, nsWithLabels).Success?
  {
  }

  /** Context `i` is the first whose build fails, and `e` is its error. */
  predicate FirstUnbuilt(ctxs: seq<InformerContext>,
                         allNs: Client -> set<string>,
                         nsWithLabels: (Client, map<string, string>) -> set<string>, i: nat, e: Error)
    requires i < |ctxs| && forall j :: 0 <= j < |ctxs| ==> Resolved(ctxs[j])
  {
    && (forall j :: 0 <= j < i ==> BuildOwner(ctxs[j], allNs, nsWithLabels).Success?)
    && BuildOwner(ctxs[i], allNs, nsWithLabels) == Failure(e)
  }

  /** `BuildOwner` for each context in order: it succeeds exactly when every build does; the first failure throws. */
  function BuildAll(ctxs: seq<InformerContext>,
                    allNs: Client -> set<string>,
                    nsWithLabels: (Client, map<string, string>) -> set<string>): (r: Result<seq<OwnerTopology>, Error>)
    requires forall i :: 0 <= i < |ctxs| ==> Resolved(ctxs[i])
    ensures r.Success? <==> forall i :: 0 <= i < |ctxs| ==> BuildOwner(ctxs[i], allNs, nsWithLabels).Success?
    ensures r.Success? ==> |r.value| == |ctxs|
    ensures r.Success? ==> forall i :: 0 <= i < |ctxs| ==> BuildOwner(ctxs[i], allNs, nsWithLabels) == Success(r.value[i])
    ensures r.Failure? ==> exists i :: 0 <= i < |ctxs| && FirstUnbuilt(ctxs, allNs, nsWithLabels, i, r.error)
  {
    if ctxs == [] then Success([])
    else
      var first := BuildOwner(ctxs[0], allNs, nsWithLabels);
      if first.Failure? then
        assert FirstUnbuilt(ctxs, allNs, nsWithLabels, 0, first.error);
        Failure(first.error)
      else
        var rest := BuildAll(ctxs[1..], allNs, nsWithLabels);
        if rest.Failure? then
          var i :| 0 <= i < |ctxs[1..]| && FirstUnbuilt(ctxs[1..], allNs, nsWithLabels, i, rest.error);
          FirstUnbuiltShift(ctxs, allNs, nsWithLabels, i, rest.error);
          rest
        else
          BuiltCons(ctxs, allNs, nsWithLabels, first.value, rest.value);
          Success([first.value] + rest.value)
  }

  /** A built head followed by a built tail builds the whole list, position by position. */
  lemma BuiltCons(ctxs: seq<InformerContext>,
                  allNs: Client -> set<string>,
                  nsWithLabels: (Client, map<string, string>) -> set<string>,
                  t: OwnerTopology, rest: seq<OwnerTopology>)
    requires forall j :: 0 <= j < |ctxs| ==> Resolved(ctxs[j])
    requires ctxs != [] && BuildOwner(ctxs[0], allNs, nsWithLabels) == Success(t)
    requires |rest| == |ctxs| - 1
    requires forall j :: 0 <= j < |rest| ==> BuildOwner(ctxs[1..][j], allNs, nsWithLabels) == Success(rest[j])
    ensures forall j :: 0 <= j < |ctxs| ==> BuildOwner(ctxs[j], allNs, nsWithLabels) == Success(([t] + rest)[j])
  {
    var tail := ctxs[1..];
    forall j | 0 <= j < |ctxs| ensures BuildOwner(ctxs[j], allNs, nsWithLabels) == Success(([t] + rest)[j]) {
      if j > 0 {
        var k := j - 1;
        assert BuildOwner(tail[k], allNs, nsWithLabels) == Success(rest[k]);
        assert tail[k] == ctxs[j] && ([t] + rest)[j] == rest[k];
      } else {
        assert ([t] + rest)[0] == t;
      }
    }
  }

  /** The first failing build after a successful head is the first failing build of the whole list. */
  lemma FirstUnbuiltShift(ctxs: seq<InformerContext>,
                          allNs: Client -> set<string>,
                          nsWithLabels: (Client, map<string, string>) -> set<string>, i: nat, e: Error)
    requires forall j :: 0 <= j < |ctxs| ==> Resolved(ctxs[j])
    requires ctxs != [] && BuildOwner(ctxs[0], allNs, nsWithLabels).Success?
    requires i < |ctxs| - 1 && FirstUnbuilt(ctxs[1..], allNs, nsWithLabels, i, e)
    ensures FirstUnbuilt(ctxs, allNs, nsWithLabels, i + 1, e)
  {
    assert ctxs[i + 1] == ctxs[1..][i];
    forall j | 0 <= j < i + 1 ensures BuildOwner(ctxs[j], allNs, nsWithLabels).Success? {
      if j > 0 { assert ctxs[j] == ctxs[1..][j - 1]; }
    }
  }

  /** Whether an owner resolves to a context and that context builds. */
  predicate Opens(o: Owner, config: map<string, Config>, clients: map<string, Client>,
                  allNs: Client -> set<string>,
                  nsWithLabels: (Client, map<string, string>) -> set<string>)
  {
    ContextOf(o, config, clients).Success? && BuildOwner(ContextOf(o, config, clients).value, allNs, nsWithLabels).Success?
  }

  /**
    `createInformers`: resolve every owner that has `@Watch` methods, then build each
    one's subscriptions. It succeeds exactly when each such owner resolves and builds,
    and each topology is built from that owner's merged context.
  */
  function CreateInformers(owners: seq<Owner>, config: map<string, Config>, clients: map<string, Client>,
                           allNs: Client -> set<string>,
                           nsWithLabels: (Client, map<string, string>) -> set<string>): (r: Result<seq<OwnerTopology>, Error>)
    ensures r.Success? <==> forall o :: o in owners && HasWatchMethods(o) ==> Opens(o, config, clients, allNs, nsWithLabels)
    ensures r.Success? ==> |r.value| == |WatchingOwners(owners)|
    ensures r.Success? ==> forall i :: 0 <= i < |r.value| ==>
      && r.value[i].context.owner == WatchingOwners(owners)[i]
      && HasWatchMethods(r.value[i].context.owner)
      && ContextOf(WatchingOwners(owners)[i], config, clients) == Success(r.value[i].context)
      && GetNamespaces(r.value[i].context.cfg, r.value[i].context.client, allNs, nsWithLabels) == Success(r.value[i].namespaces)
      && WellFormedTopology(r.value[i])
    ensures GetInformerContextList(owners, config, clients).Failure? ==>
      r == Failure(GetInformerContextList(owners, config, clients).error)
    ensures r.Failure? && GetInformerContextList(owners, config, clients).Success? ==>
      var ctxs := GetInformerContextList(owners, config, clients).value;
      exists i :: 0 <= i < |ctxs| && FirstUnbuilt(ctxs, allNs, nsWithLabels, i, r.error)
  {
    var ctxs := GetInformerContextList(owners, config, clients);
    if ctxs.Failure? then Failure(ctxs.error)
    else
      var r := BuildAll(ctxs.value, allNs, nsWithLabels);
      CreateInformersSucceeds(owners, config, clients, allNs, nsWithLabels, ctxs.value);
      r
  }

  /** Given the context list, every topology builds exactly when every owner with `@Watch` methods opens. */
  lemma CreateInformersSucceeds(owners: seq<Owner>, config: map<string, Config>, clients: map<string, Client>,
                                allNs: Client -> set<string>,
                                nsWithLabels: (Client, map<string, string>) -> set<string>,
                                ctxs: seq<InformerContext>)
    requires GetInformerContextList(owners, config, clients) == Success(ctxs)
    ensures forall i :: 0 <= i < |ctxs| ==> Resolved(ctxs[i])
    ensures (forall i :: 0 <= i < |ctxs| ==> BuildOwner(ctxs[i], allNs, nsWithLabels).Success?) <==>
      forall o :: o in owners && HasWatchMethods(o) ==> Opens(o, config, clients, allNs, nsWithLabels)
  {
    var watching := WatchingOwners(owners);
    if forall i :: 0 <= i < |ctxs| ==> BuildOwner(ctxs[i], allNs, nsWithLabels).Success? {
      forall o | o in owners && HasWatchMethods(o) ensures Opens(o, config, clients, allNs, nsWithLabels) {
        var i :| 0 <= i < |watching| && watching[i] == o;
        assert ContextOf(o, config, clients) == Success(ctxs[i]);
      }
    }
    if forall o :: o in owners && HasWatchMethods(o) ==> Opens(o, config, clients, allNs, nsWithLabels) {
      forall i | 0 <= i < |ctxs| ensures BuildOwner(ctxs[i], allNs, nsWithLabels).Success? {
        assert watching[i] in watching;
        assert ContextOf(watching[i], config, clients) == Success(ctxs[i]);
      }
    }
  }

  /**
    Startup as the entry point runs it: once every owner's annotation has been accepted
    against the clients `init` registered, and `postConstruct` has supplied the
    "default" configuration, creating the informers cannot fail.
  */
  lemma {:induction false} ValidatedStartupCreatesInformers(owners: seq<Owner>, config: map<string, Config>,
                                                           beans: map<string, Client>, built: Client,
                                                           allNs: Client -> set<string>,
                                                           nsWithLabels: (Client, map<string, string>) -> set<string>)
    requires AnnotationValidator.ValidateInformerAnnotations(owners, Init(beans, built)).Pass?
    ensures CreateInformers(owners, PostConstruct(config), Init(beans, built), allNs, nsWithLabels).Success?
  {
    var cfgs := PostConstruct(config);
    var clients := Init(beans, built);
    forall o | o in owners && HasWatchMethods(o) ensures Opens(o, cfgs, clients, allNs, nsWithLabels) {
      var i :| 0 <= i < |owners| && owners[i] == o;
      assert AnnotationValidator.AnnotationAccepted(owners[i], clients);
      OverrideFoundAfterPostConstruct(config, o.informer.name);
      ValidatedOwnerResolves(o, SelectOverride(cfgs, o.informer.name).value, clients);
      var ctx := ContextOf(o, cfgs, clients).value;
      GetClientAfterInit(beans, built, ctx.cfg.clientName);
      ClientContextBuilds(ctx, allNs, nsWithLabels);
    }
  }

  /** An owner without `@Watch` methods opens nothing: adding one changes no result. */
  lemma UnwatchedOwnerOpensNothing(owners: seq<Owner>, o: Owner, config: map<string, Config>, clients: map<string, Client>,
                                   allNs: Client -> set<string>,
                                   nsWithLabels: (Client, map<string, string>) -> set<string>)
    requires o.watchMethods == []
    ensures CreateInformers(owners + [o], config, clients, allNs, nsWithLabels)
         == CreateInformers(owners, config, clients, allNs, nsWithLabels)
  {
    assert WatchingOwners(owners + [o]) == WatchingOwners(owners) by {
      FilterAppend(owners, [o], HasWatchMethods);
      assert Filter([o], HasWatchMethods) == [];
    }
  }

  /**
    The handler registered for a subscription is built from that subscription's
    methods alone, so a notification only ever calls methods of the owner that watch
    its resource kind and its event kind.
  */
  lemma SubscriptionHandlerCallsOwnMethods<T>(t: OwnerTopology, s: Subscription, n: Handler.Notification<T>)
    requires WellFormedTopology(t) && s in t.subscriptions
    ensures var h := Handler.NewHandler<T>(s.owner, s.methods);
      forall inv :: inv in Handler.Notify(h, n).queue ==>
        && inv.beanClass == t.context.owner.beanClass
        && inv.watchMethod in t.context.owner.watchMethods
        && inv.watchMethod.resource == s.resource
        && inv.watchMethod.event == Handler.KindOf(n)
  {
    assert s.owner == t.context.owner.beanClass;
    assert s.methods == MethodsFor(t.context.owner.watchMethods, s.resource);
    HandlerCallsOnlyItsMethods<T>(s.owner, s.methods, n);
  }

  /** A handler built from some methods calls only those methods, each for the notification's kind. */
  lemma HandlerCallsOnlyItsMethods<T>(beanClass: string, ms: seq<WatchMethod>, n: Handler.Notification<T>)
    ensures forall inv :: inv in Handler.Notify(Handler.NewHandler<T>(beanClass, ms), n).queue ==>
      inv.beanClass == beanClass && inv.watchMethod in ms && inv.watchMethod.event == Handler.KindOf(n)
  {
    var h := Handler.NewHandler<T>(beanClass, ms);
    Handler.NotifyCallsOnlyDeclared(h, n);
    assert Handler.Notify(h, n).queue[|h.queue|..] == Handler.Notify(h, n).queue;
    assert Handler.Declared(h, Handler.KindOf(n)) == Handler.MethodsOf(ms, Handler.KindOf(n));
  }

  /** All subscriptions of a topology list, as `informerList` collects them. */
  function AllSubscriptions(tops: seq<OwnerTopology>): multiset<Subscription> {
    if tops == [] then multiset{} else multiset(tops[0].subscriptions) + AllSubscriptions(tops[1..])
  }

  /** The expected number of informers: the sum of |resource kinds| × |namespaces| over the owners. */
  function ExpectedCount(tops: seq<OwnerTopology>): nat {
    if tops == [] then 0
    else |ResourceKinds(tops[0].context.owner.watchMethods)| * |tops[0].namespaces| + ExpectedCount(tops[1..])
  }

  /** The informer list has exactly the expected number of entries. */
  lemma {:induction false} InformerCount(tops: seq<OwnerTopology>)
    requires forall i :: 0 <= i < |tops| ==> WellFormedTopology(tops[i])
    ensures |AllSubscriptions(tops)| == ExpectedCount(tops)
  {
    if tops != [] {
      assert forall i :: 0 < i < |tops| ==> tops[i] == tops[1..][i - 1];
      InformerCount(tops[1..]);
      assert |multiset(tops[0].subscriptions)| == |tops[0].subscriptions|;
    }
  }
}
