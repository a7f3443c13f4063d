/**
  Startup validation of `@Informer` owners and their `@Watch` methods: client
  resolution, label syntax, duplicate keys, configuration names, and the parameter
  rules of each event kind.
*/
module AnnotationValidator {
  import opened Wrappers
  import opened Errors
  import opened Seqs
  import opened JavaStrings
  import opened Annotations
  import opened InformerConfiguration
  import opened KubeClientFactory

  // ---------------------------------------------------------------------------
  // Label syntax and duplicate keys

  /** Every entry of the array is `key=value`. */
  predicate AllKeyValue(entries: seq<string>) {
    forall i :: 0 <= i < |entries| ==> IsKeyValue(entries[i])
  }

  /** The syntax check over one annotation array: the first entry that is not `key=value` fails it. */
  function CheckLabelSyntax(owner: string, entries: seq<string>): (r: Outcome<Error>)
    ensures r.Pass? <==> AllKeyValue(entries)
    ensures r.Fail? ==> exists i :: FirstMalformedAt(owner, entries, i, r.error)
  {
    if entries == [] then Pass
    else if !IsKeyValue(entries[0]) then
      assert FirstMalformedAt(owner, entries, 0, MalformedLabel(owner, entries[0]));
      Fail(MalformedLabel(owner, entries[0]))
    else
      var r := CheckLabelSyntax(owner, entries[1..]);
      AllKeyValueCons(entries);
      if r.Fail? then
        var i :| FirstMalformedAt(owner, entries[1..], i, r.error);
        FirstMalformedShift(owner, entries, i, r.error);
        r
      else r
  }

  /** Entry `i` is malformed, reported as `e`, and every entry before it is `key=value`. */
  predicate FirstMalformedAt(owner: string, entries: seq<string>, i: int, e: Error) {
    && 0 <= i < |entries| && e == MalformedLabel(owner, entries[i])
    && !IsKeyValue(entries[i]) && AllKeyValue(entries[..i])
  }

  /** A list is all `key=value` exactly when its first entry and the rest are. */
  lemma AllKeyValueCons(entries: seq<string>)
    requires entries != []
    ensures AllKeyValue(entries) <==> IsKeyValue(entries[0]) && AllKeyValue(entries[1..])
  {
    assert forall i :: 0 < i < |entries| ==> entries[i] == entries[1..][i - 1];
  }

  /** The first malformed entry of the rest, after a well-formed head, is the list's first malformed one. */
  lemma FirstMalformedShift(owner: string, entries: seq<string>, i: int, e: Error)
    requires entries != [] && IsKeyValue(entries[0])
    requires FirstMalformedAt(owner, entries[1..], i, e)
    ensures FirstMalformedAt(owner, entries, i + 1, e)
  {
    var before := entries[..i + 1];
    forall j | 0 <= j < |before| ensures IsKeyValue(before[j]) {
      if j > 0 { assert before[j] == entries[1..][..i][j - 1]; }
    }
  }

  /** Every entry has a key, and no two entries share one. */
  predicate HasDistinctKeys(entries: seq<string>) {
    && (forall i :: 0 <= i < |entries| ==> |JavaSplit(entries[i])| >= 1)
    && forall i, j :: 0 <= i < j < |entries| ==> LabelKey(entries[i]) != LabelKey(entries[j])
  }

  /**
    The keys `entry.split("=")[0]` of the entries in order; the first entry that splits
    into no parts at all throws.
  */
  function KeysOf(entries: seq<string>): (r: Result<seq<string>, Error>)
    ensures r.Success? <==> forall i :: 0 <= i < |entries| ==> |JavaSplit(entries[i])| >= 1
    ensures r.Success? ==> (|r.value| == |entries|
      && forall i :: 0 <= i < |entries| ==> r.value[i] == LabelKey(entries[i]))
    ensures r.Failure? ==> exists i :: 0 <= i < |entries| && r.error == KeyIndexOutOfBounds(entries[i])
  {
    if entries == [] then Success([])
    else if JavaSplit(entries[0]) == [] then Failure(KeyIndexOutOfBounds(entries[0]))
    else
      match KeysOf(entries[1..])
      case Failure(e) =>
        assert forall i :: 0 <= i < |entries[1..]| ==> entries[1..][i] == entries[i + 1];
        Failure(e)
      case Success(keys) =>
        Success([LabelKey(entries[0])] + keys)
  }

  /** `checkForDuplicateKey`: the keys must be as many distinct values as there are entries. */
  function CheckForDuplicateKey(owner: string, entries: seq<string>): (r: Outcome<Error>)
    ensures r.Pass? <==> HasDistinctKeys(entries)
    ensures r.Fail? && (forall i :: 0 <= i < |entries| ==> |JavaSplit(entries[i])| >= 1) ==>
      (r.error.DuplicateKey? && r.error.owner == owner)
    ensures (exists i :: 0 <= i < |entries| && JavaSplit(entries[i]) == []) ==>
      r.Fail? && r.error.KeyIndexOutOfBounds?
  {
    match KeysOf(entries)
    case Failure(e) => Fail(e)
    case Success(keys) =>
      DistinctCardinality(keys);
      if |ToSet(keys)| < |keys| then Fail(DuplicateKey(owner, keys)) else Pass
  }

  /**
    `validateLabels`: the syntax check on nsLabels then resLabels, then the duplicate-key
    check on nsNames, nsLabels and resLabels. nsNames are never syntax-checked, and a
    malformed entry is reported before any duplicate.
  */
  function ValidateLabels(owner: Owner): (r: Outcome<Error>)
    ensures r.Pass? <==>
      && AllKeyValue(owner.informer.nsLabels) && AllKeyValue(owner.informer.resLabels)
      && HasDistinctKeys(owner.informer.nsNames)
      && HasDistinctKeys(owner.informer.nsLabels) && HasDistinctKeys(owner.informer.resLabels)
    ensures !AllKeyValue(owner.informer.nsLabels) ==>
      r.Fail? && exists i :: FirstMalformedAt(owner.beanClass, owner.informer.nsLabels, i, r.error)
    ensures AllKeyValue(owner.informer.nsLabels) && !AllKeyValue(owner.informer.resLabels) ==>
      r.Fail? && exists i :: FirstMalformedAt(owner.beanClass, owner.informer.resLabels, i, r.error)
    ensures (&& r.Fail? && AllKeyValue(owner.informer.nsLabels) && AllKeyValue(owner.informer.resLabels)
             && forall i :: 0 <= i < |owner.informer.nsNames| ==> |JavaSplit(owner.informer.nsNames[i])| >= 1)
      ==> r.error.DuplicateKey? && r.error.owner == owner.beanClass
    ensures (&& AllKeyValue(owner.informer.nsLabels) && AllKeyValue(owner.informer.resLabels)
             && exists i :: 0 <= i < |owner.informer.nsNames| && JavaSplit(owner.informer.nsNames[i]) == [])
      ==> r.Fail? && r.error.KeyIndexOutOfBounds?
    ensures r.Fail? ==> r.error.MalformedLabel? || r.error.DuplicateKey? || r.error.KeyIndexOutOfBounds?
  {
    var a := owner.informer;
    var c := owner.beanClass;
    var syntaxNs := CheckLabelSyntax(c, a.nsLabels);
    if syntaxNs.Fail? then syntaxNs
    else
      var syntaxRes := CheckLabelSyntax(c, a.resLabels);
      if syntaxRes.Fail? then syntaxRes
      else
        var dupNames := CheckForDuplicateKey(c, a.nsNames);
        if dupNames.Fail? then dupNames
        else
          var dupNs := CheckForDuplicateKey(c, a.nsLabels);
          if dupNs.Fail? then dupNs
          else CheckForDuplicateKey(c, a.resLabels)
  }

  /** An owner's annotation is accepted: its client name resolves and its labels validate. */
  predicate AnnotationAccepted(o: Owner, clients: map<string, Client>) {
    GetClient(clients, o.informer.clientName).Some? && ValidateLabels(o).Pass?
  }

  /**
    `validateInformerAnnotations`: for each owner in turn, its client name must resolve
    to a client and its labels must validate; the first failure is reported.
  */
  function ValidateInformerAnnotations(owners: seq<Owner>, clients: map<string, Client>): (r: Outcome<Error>)
    ensures r.Pass? <==> forall i :: 0 <= i < |owners| ==> AnnotationAccepted(owners[i], clients)
    ensures r.Fail? ==> exists i :: 0 <= i < |owners| && FirstInvalidOwner(owners, clients, i, r.error)
  {
    if owners == [] then Pass
    else
      var o := owners[0];
      if GetClient(clients, o.informer.clientName).None? then
        assert FirstInvalidOwner(owners, clients, 0, ClientNotFound(o.informer.clientName));
        Fail(ClientNotFound(o.informer.clientName))
      else
        var labels := ValidateLabels(o);
        if labels.Fail? then
          assert FirstInvalidOwner(owners, clients, 0, labels.error);
          labels
        else
          var rest := ValidateInformerAnnotations(owners[1..], clients);
          assert forall i :: 0 < i < |owners| ==> owners[i] == owners[1..][i - 1];
          if rest.Fail? then
            var i :| 0 <= i < |owners[1..]| && FirstInvalidOwner(owners[1..], clients, i, rest.error);
            FirstInvalidOwnerShift(owners, clients, i, rest.error);
            rest
          else rest
  }

  /**
    Owner `i` is the first whose annotation is rejected, and `e` is what it is rejected
    with: its unknown client name, else its label error.
  */
  predicate FirstInvalidOwner(owners: seq<Owner>, clients: map<string, Client>, i: nat, e: Error)
    requires i < |owners|
  {
    && (forall j :: 0 <= j < i ==> AnnotationAccepted(owners[j], clients))
    && if GetClient(clients, owners[i].informer.clientName).None? then e == ClientNotFound(owners[i].informer.clientName)
       else ValidateLabels(owners[i]) == Fail(e)
  }

  /** The first rejected owner after an accepted head is the first rejected owner of the whole list. */
  lemma FirstInvalidOwnerShift(owners: seq<Owner>, clients: map<string, Client>, i: nat, e: Error)
    requires owners != [] && AnnotationAccepted(owners[0], clients)
    requires i < |owners| - 1 && FirstInvalidOwner(owners[1..], clients, i, e)
    ensures FirstInvalidOwner(owners, clients, i + 1, e)
  {
    assert owners[i + 1] == owners[1..][i];
    forall j | 0 <= j < i + 1 ensures AnnotationAccepted(owners[j], clients) {
      if j > 0 { assert owners[j] == owners[1..][j - 1]; }
    }
  }

  /**
    Once the client registry holds "default", no client name is rejected: the check
    passes exactly when every owner's labels validate.
  */
  lemma {:induction false} UnknownClientNamesFallBack(owners: seq<Owner>, beans: map<string, Client>, built: Client)
    ensures ValidateInformerAnnotations(owners, Init(beans, built)).Pass? <==>
      forall i :: 0 <= i < |owners| ==> ValidateLabels(owners[i]).Pass?
  {
    forall i | 0 <= i < |owners|
      ensures GetClient(Init(beans, built), owners[i].informer.clientName).Some?
    {
      GetClientAfterInit(beans, built, owners[i].informer.clientName);
    }
  }

  /** An owner whose annotation arrays are all left empty passes the label checks. */
  lemma EmptyArraysPass(owner: Owner)
    requires owner.informer.nsNames == [] && owner.informer.nsLabels == [] && owner.informer.resLabels == []
    ensures ValidateLabels(owner).Pass?
  {
  }

  /** nsNames are only checked for duplicates, so plain namespace names pass. */
  lemma PlainNamespaceNamesPass(owner: Owner)
    requires owner.informer.nsNames == ["x", "y"]
    requires owner.informer.nsLabels == [] && owner.informer.resLabels == []
    ensures ValidateLabels(owner).Pass?
  {
    assert JavaSplit("x") == ["x"] && JavaSplit("y") == ["y"];
  }

  /** `"key="` has no value and is reported as malformed. */
  lemma MissingValueRejected(owner: Owner)
    requires owner.informer.nsLabels == ["key="]
    ensures ValidateLabels(owner) == Fail(MalformedLabel(owner.beanClass, "key="))
  {
    TrailingSeparatorExample();
  }

  /** Two well-formed labels with the same key, such as `env=a` and `env=b`, are reported as a duplicate. */
  lemma DuplicateLabelRejected(owner: Owner, key: string, v1: string, v2: string)
    requires Separator !in key && Separator !in v1 && Separator !in v2 && v1 != "" && v2 != ""
    requires owner.informer.nsLabels == [key + [Separator] + v1, key + [Separator] + v2]
    requires owner.informer.resLabels == [] && owner.informer.nsNames == []
    ensures ValidateLabels(owner).Fail? && ValidateLabels(owner).error.DuplicateKey?
  {
    var entries := owner.informer.nsLabels;
    KeyValueSplits(key, v1, 0);
    KeyValueSplits(key, v2, 0);
    assert key + [Separator] + v1 + Separators(0) == entries[0];
    assert key + [Separator] + v2 + Separators(0) == entries[1];
    assert AllKeyValue(entries);
    assert LabelKey(entries[0]) == LabelKey(entries[1]);
  }

  // ---------------------------------------------------------------------------
  // Handler signatures

  /** The Java type names the DELETE handler's tombstone flag may have. */
  predicate IsBooleanType(t: TypeName) {
    t == "boolean" || t == "java.lang.Boolean"
  }

  /** The parameter counts each event kind admits. */
  function Arities(event: EventKind): set<nat> {
    match event
    case ADD => {1}
    case UPDATE => {2}
    case DELETE => {1, 2}
  }

  /** Whether parameter `k` of a handler for `event` receives the resource (otherwise it is the tombstone flag). */
  predicate IsResourceSlot(event: EventKind, k: nat) {
    event != DELETE || k == 0
  }

  /**
    The legal handler signatures, position by position: an admitted parameter count,
    resource slots that accept the watched type, and a boolean tombstone flag.
  */
  predicate LegalSignature(m: WatchMethod, assignable: (TypeName, TypeName) -> bool) {
    && |m.paramTypes| in Arities(m.event)
    && forall k :: 0 <= k < |m.paramTypes| ==>
      if IsResourceSlot(m.event, k) then assignable(m.paramTypes[k], m.resource)
      else IsBooleanType(m.paramTypes[k])
  }

  /** `checkIsAssignableFrom`: the parameter type must accept the resource type. */
  function CheckIsAssignableFrom(owner: string, m: WatchMethod, param: TypeName,
                                 assignable: (TypeName, TypeName) -> bool): (r: Outcome<Error>)
    ensures r.Pass? <==> assignable(param, m.resource)
    ensures r.Fail? ==> r.error == NotAssignable(owner, m.name, param, m.resource)
    ensures r.Fail? ==> ExceptionOf(r.error) == MalformedParametersException
  {
    if !assignable(param, m.resource) then Fail(NotAssignable(owner, m.name, param, m.resource)) else Pass
  }

  /** `checkAddParams`: exactly one parameter, accepting the resource. */
  function CheckAddParams(owner: string, m: WatchMethod, assignable: (TypeName, TypeName) -> bool): (r: Outcome<Error>)
    ensures |m.paramTypes| != 1 ==> r == Fail(WrongArity(owner, m.name, |m.paramTypes|))
    ensures r.Fail? ==> ExceptionOf(r.error) == MalformedParametersException
  {
    if |m.paramTypes| != 1 then Fail(WrongArity(owner, m.name, |m.paramTypes|))
    else CheckIsAssignableFrom(owner, m, m.paramTypes[0], assignable)
  }

  /** `checkUpdateParams`: exactly two parameters, both accepting the resource. */
  function CheckUpdateParams(owner: string, m: WatchMethod, assignable: (TypeName, TypeName) -> bool): (r: Outcome<Error>)
    ensures |m.paramTypes| != 2 ==> r == Fail(WrongArity(owner, m.name, |m.paramTypes|))
    ensures r.Fail? ==> ExceptionOf(r.error) == MalformedParametersException
  {
    if |m.paramTypes| != 2 then Fail(WrongArity(owner, m.name, |m.paramTypes|))
    else
      var first := CheckIsAssignableFrom(owner, m, m.paramTypes[0], assignable);
      if first.Fail? then first
      else CheckIsAssignableFrom(owner, m, m.paramTypes[1], assignable)
  }

  /** `checkDeleteParams`: one or two parameters, the first accepting the resource, a second one boolean. */
  function CheckDeleteParams(owner: string, m: WatchMethod, assignable: (TypeName, TypeName) -> bool): (r: Outcome<Error>)
    ensures |m.paramTypes| !in {1, 2} ==> r == Fail(WrongArity(owner, m.name, |m.paramTypes|))
    ensures r.Fail? ==> ExceptionOf(r.error) == MalformedParametersException
  {
    var n := |m.paramTypes|;
    if n < 1 || n > 2 then Fail(WrongArity(owner, m.name, n))
    else
      var first := CheckIsAssignableFrom(owner, m, m.paramTypes[0], assignable);
      if first.Fail? then first
      else if n == 2 && !IsBooleanType(m.paramTypes[1]) then Fail(NotBoolean(m.paramTypes[1]))
      else Pass
  }

  /** The check the method's event kind selects. */
  function CheckWatchMethod(owner: string, m: WatchMethod, assignable: (TypeName, TypeName) -> bool): (r: Outcome<Error>)
    ensures r.Pass? <==> LegalSignature(m, assignable)
    ensures |m.paramTypes| !in Arities(m.event) ==> r == Fail(WrongArity(owner, m.name, |m.paramTypes|))
    ensures r.Fail? ==> ExceptionOf(r.error) == MalformedParametersException
  {
    match m.event
    case ADD => CheckAddParams(owner, m, assignable)
    case UPDATE => CheckUpdateParams(owner, m, assignable)
    case DELETE => CheckDeleteParams(owner, m, assignable)
  }

  /** The methods of one owner in order; the first illegal one fails. */
  function CheckWatchMethods(owner: string, ms: seq<WatchMethod>, assignable: (TypeName, TypeName) -> bool): (r: Outcome<Error>)
    ensures r.Pass? <==> forall j :: 0 <= j < |ms| ==> LegalSignature(ms[j], assignable)
    ensures r.Fail? ==> ExceptionOf(r.error) == MalformedParametersException
    ensures r.Fail? ==> exists j :: (0 <= j < |ms| && !LegalSignature(ms[j], assignable)
      && CheckWatchMethod(owner, ms[j], assignable) == r)
  {
    if ms == [] then Pass
    else
      var first := CheckWatchMethod(owner, ms[0], assignable);
      if first.Fail? then first
      else
        assert forall j :: 0 < j < |ms| ==> ms[j] == ms[1..][j - 1];
        var rest := CheckWatchMethods(owner, ms[1..], assignable);
        if rest.Fail? then
          var j :| 0 <= j < |ms[1..]| && !LegalSignature(ms[1..][j], assignable)
            && CheckWatchMethod(owner, ms[1..][j], assignable) == rest;
          assert ms[1..][j] == ms[j + 1];
          rest
        else rest
  }

  /** The classes of the owners without `@Watch` methods, which only draw a warning. */
  function UnwatchedOwners(owners: seq<Owner>): (r: seq<string>)
    ensures forall c :: c in r <==> exists i :: 0 <= i < |owners| && owners[i].watchMethods == [] && owners[i].beanClass == c
  {
    if owners == [] then []
    else
      assert forall i :: 0 < i < |owners| ==> owners[i] == owners[1..][i - 1];
      (if owners[0].watchMethods == [] then [owners[0].beanClass] else []) + UnwatchedOwners(owners[1..])
  }

  /**
    `validateWatchAnnotations`: every `@Watch` method of every owner must have a legal
    signature. On success the result lists the owners that were only warned about.
  */
  function ValidateWatchAnnotations(owners: seq<Owner>, assignable: (TypeName, TypeName) -> bool): (r: Result<seq<string>, Error>)
    ensures r.Success? <==> forall i, j :: 0 <= i < |owners| && 0 <= j < |owners[i].watchMethods| ==>
      LegalSignature(owners[i].watchMethods[j], assignable)
    ensures r.Success? ==> r.value == UnwatchedOwners(owners)
    ensures r.Failure? ==> ExceptionOf(r.error) == MalformedParametersException
  {
    if owners == [] then Success([])
    else
      var o := owners[0];
      var methods := CheckWatchMethods(o.beanClass, o.watchMethods, assignable);
      if methods.Fail? then Failure(methods.error)
      else
        assert forall i :: 0 < i < |owners| ==> owners[i] == owners[1..][i - 1];
        match ValidateWatchAnnotations(owners[1..], assignable)
        case Failure(e) => Failure(e)
        case Success(rest) =>
          assert UnwatchedOwners(owners) == (if o.watchMethods == [] then [o.beanClass] else []) + UnwatchedOwners(owners[1..]);
          Success((if o.watchMethods == [] then [o.beanClass] else []) + rest)
  }

  /** The signatures the validator's tests exercise, with Pod and Namespace only assignable to themselves. */
  lemma SignatureExamples(assignable: (TypeName, TypeName) -> bool)
    requires assignable("Pod", "Pod") && assignable("Namespace", "Namespace")
    requires !assignable("java.lang.String", "Pod")
    ensures !LegalSignature(WatchMethod("onAdd", ADD, "Pod", []), assignable)
    ensures !LegalSignature(WatchMethod("onAdd", ADD, "Pod", ["java.lang.String"]), assignable)
    ensures LegalSignature(WatchMethod("onAdd", ADD, "Pod", ["Pod"]), assignable)
    ensures !LegalSignature(WatchMethod("onUpdate", UPDATE, "Pod", ["Pod", "Pod", "Pod"]), assignable)
    ensures LegalSignature(WatchMethod("onUpdate", UPDATE, "Pod", ["Pod", "Pod"]), assignable)
    ensures !LegalSignature(WatchMethod("onDelete", DELETE, "Pod", ["Pod", "Pod", "boolean"]), assignable)
    ensures LegalSignature(WatchMethod("onDelete", DELETE, "Namespace", ["Namespace", "java.lang.Boolean"]), assignable)
    ensures LegalSignature(WatchMethod("onDelete", DELETE, "Pod", ["Pod"]), assignable)
  {
    var stringParam := WatchMethod("onAdd", ADD, "Pod", ["java.lang.String"]);
    assert IsResourceSlot(ADD, 0) && !assignable(stringParam.paramTypes[0], stringParam.resource);
  }

  // ---------------------------------------------------------------------------
  // Configuration names

  /**
    `validateHasConfigName`: a configuration name with text must be a key of the
    configuration map; blank names are not checked.
  */
  function ValidateHasConfigName(owners: seq<Owner>, config: map<string, Config>): (r: Outcome<Error>)
    ensures r.Pass? <==> forall i :: 0 <= i < |owners| ==>
      !HasText(owners[i].informer.name) || owners[i].informer.name in config
    ensures r.Fail? ==> exists i :: (0 <= i < |owners|
      && r.error == UndefinedConfigName(owners[i].beanClass, owners[i].informer.name)
      && ExceptionOf(r.error) == IllegalArgumentException)
  {
    if owners == [] then Pass
    else
      var o := owners[0];
      if HasText(o.informer.name) && o.informer.name !in config then
        Fail(UndefinedConfigName(o.beanClass, o.informer.name))
      else
        assert forall i :: 0 < i < |owners| ==> owners[i] == owners[1..][i - 1];
        ValidateHasConfigName(owners[1..], config)
  }

  /** "default" and a registered custom name pass; an unregistered custom name does not. */
  lemma ConfigNameExamples(o: Owner, config: map<string, Config>)
    requires DefaultName in config
    ensures o.informer.name == DefaultName ==> ValidateHasConfigName([o], config).Pass?
    ensures o.informer.name == "custom" ==> (ValidateHasConfigName([o], config).Pass? <==> "custom" in config)
  {
    assert "custom"[0] == 'c';
  }
}
