# spring-k8swatcher core in Dafny

A model of the `io.k8swatcher` engine. The engine turns `@Informer` owner classes and
their `@Watch` handler methods into Kubernetes watch subscriptions. The model covers
four parts:

- **Startup validation** (`AnnotationValidator`). It checks label syntax, duplicate
  keys, client and configuration names, and the parameter rules of every handler
  signature.
- **Configuration resolution and topology** (`InformerCreator`).
  - It merges an owner's annotation with the named override from the application
    settings, field by field.
  - It clamps the resync period up to 1000 ms.
  - It selects the namespaces: explicit names, else all namespaces, else a label query.
  - It opens one subscription per distinct resource kind and selected namespace.
- **Event routing** (`IndexInformerResHandler`). Each handler groups its methods by
  event kind. For every add, update or delete notification it appends one invocation
  task per matching method to its own serial queue.
- **The registries** (`KubeClientFactory`, `ConfigurationProperty`,
  `InformerConfiguration`). The client map and the configuration map always hold a
  "default" entry, and lookups fall back to it.

Java's `String.split("=")` is modelled exactly in `JavaStrings.JavaSplit`, because
every label decision depends on it. It uses limit 0, which drops trailing empty
strings, so `"key="` is one part, `"=v"` two and `"="` none. Every exception this
package's own code throws is an `Errors.Error` value on the failure side of a `Result`
or `Outcome`. Failures inside the Kubernetes client's calls are not modelled (see
"Left out").

Values the model takes as parameters:

- Reflection is a parameter: `assignable(param, resource)` stands for
  `param.isAssignableFrom(resource)`.
- The client's namespace list calls are the parameters `allNs(client)` and
  `nsWithLabels(client, labels)`.
- The client that `init` builds when no "default" bean exists is the parameter `built`.

Modules, one per source file:

| module | file |
|---|---|
| `Wrappers`, `Errors`, `Seqs` | wrappers.dfy, errors.dfy, seqs.dfy |
| `JavaStrings` | java_strings.dfy |
| `Annotations` | annotations.dfy |
| `InformerConfiguration` | informer_configuration.dfy |
| `ConfigurationProperty` | configuration_property.dfy |
| `KubeClientFactory` | kube_client_factory.dfy |
| `AnnotationValidator` | annotation_validator.dfy |
| `InformerCreator` | informer_creator.dfy |
| `IndexInformerResHandler` | index_informer_res_handler.dfy |

### Behaviour of the code worth knowing

- **Resync period below the minimum.** It is never rejected.
  `createInformerContext` raises it to 1000 with a warning (InformerCreator.java:139-145).
  The validator has no resync check.
- **Client names.** The validator checks the annotation's own `clientName`, not the
  merged one (AnnotationValidator.java:63). `getClient` falls back to "default", and
  `init` always registers "default". So after `init` no name is rejected, and an
  unknown name silently uses the default client.
- **Configuration names.** `validateHasConfigName` exists but the startup sequence
  calls only `validateInformerAnnotations` and `validateWatchAnnotations`
  (InformerEntrypoint.java:61-64). An unknown configuration name therefore falls back
  to the "default" override at resolution time.
- **Merged fields can stay empty.** A merged field falls back to the annotation value,
  which may itself be empty (for example no labels and no names). The merged
  configuration is not guaranteed to have every field set.
- **Resolution can fail.** It fails on labels the validator would have rejected: a
  missing value or a duplicate key. It also fails on a missing "default" override.
  `InformerCreator.ValidatedOwnerResolves` and
  `InformerCreator.OverrideFoundAfterPostConstruct` show that neither failure can
  happen once validation and `postConstruct` have run.
  `InformerCreator.ValidatedStartupCreatesInformers` puts the pieces together. After
  `init`, `postConstruct` and an accepted `validateInformerAnnotations`,
  `createInformers` cannot fail.

## Model

Source paths are relative to the repository root.

| member | source | states |
|---|---|---|
| JavaStrings.JavaSplit | src/main/java/io/k8swatcher/annotation/validate/AnnotationValidator.java:181 | `split("=")`: no part contains '='; a string without '=' is returned whole; otherwise the parts are the fields with exactly the trailing empty fields dropped (the last part is non-empty and every dropped field is empty) |
| JavaStrings.Fields | src/main/java/io/k8swatcher/annotation/validate/AnnotationValidator.java:181 | a string has at least one field and no field contains '=' |
| JavaStrings.StripTrailingEmpty | src/main/java/io/k8swatcher/annotation/validate/AnnotationValidator.java:181 | the result is a prefix that does not end in an empty string, and everything dropped is empty |
| JavaStrings.JoinFields | src/main/java/io/k8swatcher/annotation/validate/AnnotationValidator.java:181 | joining the fields with '=' gives the original string back |
| JavaStrings.FieldsJoin | src/main/java/io/k8swatcher/annotation/validate/AnnotationValidator.java:181 | splitting a join of '='-free parts gives the parts back |
| JavaStrings.TwoPartsShape | src/main/java/io/k8swatcher/annotation/validate/AnnotationValidator.java:181-182 | an entry with exactly two parts is key, '=', a non-empty value and only '=' after it |
| JavaStrings.KeyValueSplits | src/main/java/io/k8swatcher/annotation/validate/AnnotationValidator.java:181-182 | key '=' non-empty value plus any number of trailing '=' splits into exactly [key, value] |
| JavaStrings.KeyValueWitness | src/main/java/io/k8swatcher/annotation/validate/AnnotationValidator.java:181-182 | an accepted entry has a separator position after its key and its value with only '=' after it |
| JavaStrings.KeyValueAtSplits | src/main/java/io/k8swatcher/annotation/validate/AnnotationValidator.java:181-182 | an entry with such positions splits into exactly its key and its value |
| JavaStrings.KeyValueIff | src/main/java/io/k8swatcher/annotation/validate/AnnotationValidator.java:181-182 | the accepted entries are exactly `key=value` (value non-empty, neither with '=') optionally followed by '=' characters |
| JavaStrings.AcceptedSplitExamples | src/main/java/io/k8swatcher/annotation/validate/AnnotationValidator.java:181-182 | `"=v"` splits into ["", "v"] and `"a=b="` into ["a", "b"], both accepted |
| JavaStrings.TrailingSeparatorExample | src/main/java/io/k8swatcher/annotation/validate/AnnotationValidator.java:181-182 | `"key="` splits into the single part "key" |
| JavaStrings.ThreePartsExample | src/main/java/io/k8swatcher/annotation/validate/AnnotationValidator.java:181-182 | `"a=b=c"` splits into three parts |
| JavaStrings.LoneSeparatorExample | src/main/java/io/k8swatcher/annotation/validate/AnnotationValidator.java:198-200 | `"="` splits into no parts, so reading its key would be out of bounds |
| JavaStrings.LabelKey | src/main/java/io/k8swatcher/annotation/validate/AnnotationValidator.java:200 | the key `split("=")[0]` of an entry with at least one part: the whole entry when it has no '=', otherwise the text before its first '='; it never contains '=' |
| JavaStrings.IsKeyValue | src/main/java/io/k8swatcher/annotation/validate/AnnotationValidator.java:181-182 | an entry is accepted as a label iff `split("=")` gives exactly two parts |
| JavaStrings.IsJavaWhitespace | src/main/java/io/k8swatcher/annotation/validate/AnnotationValidator.java:100 | the characters Java's `Character.isWhitespace` accepts: space, tab, line feed, carriage return, the controls U+000B, U+000C and U+001C-U+001F, and the Unicode space, line and paragraph separators except the no-break spaces U+00A0, U+2007 and U+202F |
| JavaStrings.HasText | src/main/java/io/k8swatcher/annotation/validate/AnnotationValidator.java:100 | `StringUtils.hasText`: some character of the string is not whitespace |
| JavaStrings.HasTextExamples | src/main/java/io/k8swatcher/annotation/validate/AnnotationValidator.java:100 | "", " \t" and an ideographic space with a newline have no text; " a " has text, and so does each no-break space alone |
| Seqs.DistinctCardinality | src/main/java/io/k8swatcher/annotation/validate/AnnotationValidator.java:199-202 | a key list has as many distinct keys as entries exactly when no key repeats (the `keySet.size() < keys.size()` test) |
| Seqs.DistinctCons | src/main/java/io/k8swatcher/annotation/validate/AnnotationValidator.java:199-202 | a key list is free of repeats iff its first key is not among the rest and the rest are free of repeats |
| AnnotationValidator.CheckLabelSyntax | src/main/java/io/k8swatcher/annotation/validate/AnnotationValidator.java:179-189 | passes iff every entry splits into exactly two parts; a failure names the first malformed entry |
| AnnotationValidator.AllKeyValueCons | src/main/java/io/k8swatcher/annotation/validate/AnnotationValidator.java:179-189 | a label array is all `key=value` iff its first entry and the rest are |
| AnnotationValidator.FirstMalformedShift | src/main/java/io/k8swatcher/annotation/validate/AnnotationValidator.java:179-189 | after a well-formed first entry, the rest's first malformed entry is the array's first malformed entry |
| AnnotationValidator.KeysOf | src/main/java/io/k8swatcher/annotation/validate/AnnotationValidator.java:199-200 | the keys are part 0 of each entry, in order; an entry with no parts throws |
| AnnotationValidator.CheckForDuplicateKey | src/main/java/io/k8swatcher/annotation/validate/AnnotationValidator.java:198-208 | passes iff every entry has a key and no two keys are equal; an entry with no parts (such as "=") fails with an index-out-of-bounds error (ArrayIndexOutOfBoundsException); with keys present a failure is a duplicate-key error for this owner |
| AnnotationValidator.ValidateLabels | src/main/java/io/k8swatcher/annotation/validate/AnnotationValidator.java:174-196 | passes iff nsLabels and resLabels are all `key=value` and nsNames, nsLabels and resLabels each have distinct keys; a malformed nsLabels entry is reported first as its first malformed entry, then a malformed resLabels entry; with both label arrays well formed, an nsNames entry with no parts fails with an index-out-of-bounds error, and with every nsNames entry keyed a failure is a DuplicateKey for the owner |
| AnnotationValidator.ValidateInformerAnnotations | src/main/java/io/k8swatcher/annotation/validate/AnnotationValidator.java:59-69 | passes iff every owner's annotated client name resolves and its labels validate; a failure is the first rejected owner's ClientNotFound, else its label error |
| AnnotationValidator.FirstInvalidOwnerShift | src/main/java/io/k8swatcher/annotation/validate/AnnotationValidator.java:59-69 | the first rejected owner after an accepted first owner is the first rejected owner of the whole list |
| AnnotationValidator.UnknownClientNamesFallBack | src/main/java/io/k8swatcher/annotation/validate/AnnotationValidator.java:63-66 | after `init`, no client name is rejected: the check passes iff all labels validate |
| AnnotationValidator.EmptyArraysPass | src/main/java/io/k8swatcher/annotation/validate/AnnotationValidator.java:190-195 | an owner with all annotation arrays empty passes |
| AnnotationValidator.PlainNamespaceNamesPass | src/main/java/io/k8swatcher/annotation/validate/AnnotationValidator.java:190-193 | nsNames are not syntax-checked: plain names such as "x", "y" pass |
| AnnotationValidator.MissingValueRejected | src/main/java/io/k8swatcher/annotation/validate/AnnotationValidator.java:181-188 | an nsLabels entry `"key="` is rejected as a malformed label |
| AnnotationValidator.DuplicateLabelRejected | src/main/java/io/k8swatcher/annotation/validate/AnnotationValidator.java:194-207 | two well-formed nsLabels entries with the same key and different values are rejected as a duplicate key |
| AnnotationValidator.CheckIsAssignableFrom | src/main/java/io/k8swatcher/annotation/validate/AnnotationValidator.java:161-172 | passes iff the parameter type accepts the resource type; the failure names owner, method, parameter and resource and is a MalformedParametersException |
| AnnotationValidator.CheckAddParams | src/main/java/io/k8swatcher/annotation/validate/AnnotationValidator.java:109-120 | a parameter count other than 1 is an arity error; every failure is a MalformedParametersException |
| AnnotationValidator.CheckUpdateParams | src/main/java/io/k8swatcher/annotation/validate/AnnotationValidator.java:122-137 | a parameter count other than 2 is an arity error; every failure is a MalformedParametersException |
| AnnotationValidator.CheckDeleteParams | src/main/java/io/k8swatcher/annotation/validate/AnnotationValidator.java:139-159 | a parameter count outside {1, 2} is an arity error; every failure is a MalformedParametersException |
| AnnotationValidator.CheckWatchMethod | src/main/java/io/k8swatcher/annotation/validate/AnnotationValidator.java:86-90 | passes iff the signature is legal for its event kind (ADD one accepting parameter; UPDATE two; DELETE one or two with a boolean second); a count outside the kind's arities is an arity error; every failure is a MalformedParametersException |
| AnnotationValidator.CheckWatchMethods | src/main/java/io/k8swatcher/annotation/validate/AnnotationValidator.java:81-91 | passes iff every method of the owner has a legal signature; a failure is a MalformedParametersException, the check's result for an illegal method |
| AnnotationValidator.UnwatchedOwners | src/main/java/io/k8swatcher/annotation/validate/AnnotationValidator.java:78-80 | lists exactly the owners without `@Watch` methods |
| AnnotationValidator.ValidateWatchAnnotations | src/main/java/io/k8swatcher/annotation/validate/AnnotationValidator.java:71-93 | succeeds iff every method of every owner is legal; owners without methods are only warned about, never rejected; a failure is a MalformedParametersException |
| AnnotationValidator.SignatureExamples | src/main/java/io/k8swatcher/annotation/validate/AnnotationValidator.java:109-159 | zero parameters or a String parameter for ADD, three for UPDATE, `(Pod, Pod, boolean)` for DELETE are illegal; `(Pod)`, `(Pod, Pod)`, `(Namespace, Boolean)` and `(Pod)` are legal |
| AnnotationValidator.ValidateHasConfigName | src/main/java/io/k8swatcher/annotation/validate/AnnotationValidator.java:95-107 | passes iff every non-blank configuration name is a key of the configuration map; a failure is an illegal-argument error naming the owner |
| AnnotationValidator.ConfigNameExamples | src/main/java/io/k8swatcher/annotation/validate/AnnotationValidator.java:99-105 | "default" passes; "custom" passes iff it is registered |
| InformerConfiguration.NoArgsIsUnset | src/main/java/io/k8swatcher/annotation/cfg/InformerConfiguration.java:13-17 | the no-argument configuration has empty maps and set, empty client name, no period, and is the only such configuration |
| InformerConfiguration.AllArgsStoresFields | src/main/java/io/k8swatcher/annotation/cfg/InformerConfiguration.java:8-11 | the all-arguments constructor stores its five arguments; this mirrors Lombok's `@AllArgsConstructor` and holds for any Dafny datatype, so it records the correspondence rather than proving anything about the model |
| InformerConfiguration.EqualityIsStructural | src/main/java/io/k8swatcher/annotation/cfg/InformerConfiguration.java:8 | two configurations are equal iff all five fields are; this mirrors Lombok's `@Data` equality and holds for any Dafny datatype, so it records the correspondence rather than proving anything about the model |
| ConfigurationProperty.PostConstruct | src/main/java/io/k8swatcher/annotation/cfg/InformerConfigurationProperty.java:35-41 | "default" is present afterwards; an existing default is kept, a missing one becomes the no-argument configuration; other entries are kept; at most one entry is added |
| ConfigurationProperty.PostConstructIdempotent | src/main/java/io/k8swatcher/annotation/cfg/InformerConfigurationProperty.java:37-40 | running it twice equals running it once |
| ConfigurationProperty.PostConstructSize | src/main/java/io/k8swatcher/annotation/cfg/InformerConfigurationProperty.java:37-40 | with a default the map is unchanged; without one it grows by exactly one |
| KubeClientFactory.Init | src/main/java/io/k8swatcher/annotation/processor/KubeClientFactory.java:41-44 | "default" is registered afterwards; an existing default bean is kept; every bean is kept; only "default" may be added |
| KubeClientFactory.GetClient | src/main/java/io/k8swatcher/annotation/processor/KubeClientFactory.java:46-48 | the client under the name, else the default client; null iff neither is registered |
| KubeClientFactory.GetClientAfterInit | src/main/java/io/k8swatcher/annotation/processor/KubeClientFactory.java:42-48 | after `init` every name resolves: to its own bean, else the default bean, else the built client |
| KubeClientFactory.BuiltDefaultIsNew | src/main/java/io/k8swatcher/annotation/processor/KubeClientFactory.java:43 | a default built by `init` is none of the registered beans |
| KubeClientFactory.Shutdown | src/main/java/io/k8swatcher/annotation/processor/KubeClientFactory.java:50-54 | every registered client is closed, each registration exactly once |
| InformerCreator.SelectOverride | src/main/java/io/k8swatcher/annotation/processor/InformerCreator.java:109-111 | the entry for the owner's configuration name, else the "default" entry; null iff neither exists |
| InformerCreator.OverrideFoundAfterPostConstruct | src/main/java/io/k8swatcher/annotation/processor/InformerCreator.java:109-111 | after `postConstruct` every owner finds an override, its own when registered |
| InformerCreator.CollectableStep | src/main/java/io/k8swatcher/annotation/processor/InformerCreator.java:127-128 | collecting the first entry leaves the rest collectable after its key, and adds exactly its key |
| InformerCreator.CollectableTail | src/main/java/io/k8swatcher/annotation/processor/InformerCreator.java:127-128 | what `toMap` can collect stays collectable after its first entry is collected |
| InformerCreator.CollectableCons | src/main/java/io/k8swatcher/annotation/processor/InformerCreator.java:127-128 | a first entry with a new key, followed by entries collectable after it, is collectable |
| InformerCreator.KeySetCons | src/main/java/io/k8swatcher/annotation/processor/InformerCreator.java:127-128 | the keys of an entry list are the first key plus the keys of the rest |
| InformerCreator.AllParsableTail | src/main/java/io/k8swatcher/annotation/processor/InformerCreator.java:127-128 | the entries after the first of a list whose entries all have a value all have one |
| InformerCreator.KeySetHeadOrTail | src/main/java/io/k8swatcher/annotation/processor/InformerCreator.java:127-128 | each key of a list is its first key or a key of the rest |
| InformerCreator.KeySetOfTail | src/main/java/io/k8swatcher/annotation/processor/InformerCreator.java:127-128 | the first key and each key of the rest are keys of the list |
| InformerCreator.ParseLabelsFrom | src/main/java/io/k8swatcher/annotation/processor/InformerCreator.java:127-128 | `toMap` succeeds iff every entry has a value and all keys are distinct and new; the map's keys are exactly the entries' keys and earlier entries are kept |
| InformerCreator.ParseLabelsFromValues | src/main/java/io/k8swatcher/annotation/processor/InformerCreator.java:127-128 | each key maps to part 1 of its entry |
| InformerCreator.NameSetFrom | src/main/java/io/k8swatcher/annotation/processor/InformerCreator.java:148 | `Set.of` succeeds iff the names are distinct; the set holds exactly the names |
| InformerCreator.EffectiveResync | src/main/java/io/k8swatcher/annotation/processor/InformerCreator.java:135-145 | the override's period if present, else the annotation's; below 1000 it becomes 1000, otherwise it is unchanged; never below 1000 |
| InformerCreator.EffectiveResyncIdempotent | src/main/java/io/k8swatcher/annotation/processor/InformerCreator.java:139-145 | a resolved period resolves to itself |
| InformerCreator.CreateInformerContext | src/main/java/io/k8swatcher/annotation/processor/InformerCreator.java:118-154 | each field takes a non-empty override value, else the annotation's (labels parsed, names as a set); the period is clamped; the client is the one the merged name resolves to; fails iff a label array or the names it falls back to cannot be collected; the error is the nsLabels parse error first, then the resLabels one, then the nsNames one |
| InformerCreator.ValidatedOwnerResolves | src/main/java/io/k8swatcher/annotation/processor/InformerCreator.java:125-149 | an owner that passed label validation resolves under any override |
| InformerCreator.NoArgsOverrideUsesAnnotation | src/main/java/io/k8swatcher/annotation/processor/InformerCreator.java:120-149 | with the no-argument override every field comes from the annotation |
| InformerCreator.SmallResyncIsClamped | src/main/java/io/k8swatcher/annotation/processor/InformerCreator.java:135-145 | an annotated period of 500 with no override resolves to 1000 |
| InformerCreator.DefaultAnnotationResolves | src/main/java/io/k8swatcher/annotation/Informer.java:12-22 | a bare `@Informer` (all defaults) under the no-argument override resolves to client name "default", resync 1000, no labels and no names; its client is the "default" client and it watches all namespaces |
| InformerCreator.HasWatchMethods | src/main/java/io/k8swatcher/annotation/processor/InformerCreator.java:104-106 | an owner is kept iff it has at least one `@Watch` method |
| InformerCreator.WatchingOwners | src/main/java/io/k8swatcher/annotation/processor/InformerCreator.java:104-106 | the kept owners are exactly the given owners with `@Watch` methods, and no more of them |
| InformerCreator.ContextOf | src/main/java/io/k8swatcher/annotation/processor/InformerCreator.java:107-113 | an owner resolves iff an override is selected and merging it into the annotation succeeds; the context is the owner's and resolved; failures are a missing configuration or a label or name parse error |
| InformerCreator.FirstUnresolvedShift | src/main/java/io/k8swatcher/annotation/processor/InformerCreator.java:104-115 | the first unresolved owner after a resolved first owner is the first unresolved owner of the whole list |
| InformerCreator.ContextsFor | src/main/java/io/k8swatcher/annotation/processor/InformerCreator.java:107-115 | succeeds iff every owner resolves; on success one resolved context per owner, in order, each its owner's selected override merged into its annotation; otherwise the error of the first owner that does not resolve |
| InformerCreator.GetInformerContextList | src/main/java/io/k8swatcher/annotation/processor/InformerCreator.java:102-116 | succeeds iff every owner with `@Watch` methods resolves; the contexts are those owners' merged contexts, in order; a failure is the error of the first of those owners that does not resolve |
| InformerCreator.NamespaceQueryFor | src/main/java/io/k8swatcher/annotation/processor/InformerCreator.java:72-90 | explicit names iff names are set; otherwise all namespaces iff no namespace labels; otherwise a label query with those labels |
| InformerCreator.GetNamespaces | src/main/java/io/k8swatcher/annotation/processor/InformerCreator.java:72-90 | names verbatim with no query; else all namespaces or the label query's answer; a query on a null client fails |
| InformerCreator.NamesTakePrecedence | src/main/java/io/k8swatcher/annotation/processor/InformerCreator.java:75-77 | names {"ns1", "ns2"} with labels also set select exactly {"ns1", "ns2"} |
| InformerCreator.MethodsFor | src/main/java/io/k8swatcher/annotation/processor/InformerCreator.java:41-44 | the methods grouped under a resource kind are exactly the owner's methods for that kind |
| InformerCreator.ResourceKinds | src/main/java/io/k8swatcher/annotation/processor/InformerCreator.java:41-44 | the keys of the grouped `@Watch` methods: the resource kinds the owner's methods declare |
| InformerCreator.KindsAreGroupKeys | src/main/java/io/k8swatcher/annotation/processor/InformerCreator.java:41-51 | a resource kind is a key of the grouping iff some method is declared for it, so no group is empty |
| InformerCreator.LabelFilter | src/main/java/io/k8swatcher/annotation/processor/InformerCreator.java:92-100 | a label filter is attached iff the resource labels are non-empty, and it is those labels |
| InformerCreator.SubscriptionFor | src/main/java/io/k8swatcher/annotation/processor/InformerCreator.java:52-59 | the subscription for one kind and namespace: the owner's class, the label filter, the resync period for both informer and handler, that kind's methods and the context's client |
| InformerCreator.OwnerSubscriptions | src/main/java/io/k8swatcher/annotation/processor/InformerCreator.java:51-61 | every subscription is for a declared resource kind and a selected namespace |
| InformerCreator.RowCount | src/main/java/io/k8swatcher/annotation/processor/InformerCreator.java:52-60 | one resource kind yields one subscription per namespace |
| InformerCreator.GridSplit | src/main/java/io/k8swatcher/annotation/processor/InformerCreator.java:51-61 | the subscriptions over a set of kinds are those of the other kinds plus one kind's row, and the two are disjoint |
| InformerCreator.GridCount | src/main/java/io/k8swatcher/annotation/processor/InformerCreator.java:51-61 | kinds × namespaces yields |kinds| · |namespaces| distinct subscriptions |
| InformerCreator.OwnerSubscriptionCount | src/main/java/io/k8swatcher/annotation/processor/InformerCreator.java:41-61 | an owner has exactly |distinct resource kinds| × |selected namespaces| subscriptions |
| InformerCreator.OwnerSubscriptionsComplete | src/main/java/io/k8swatcher/annotation/processor/InformerCreator.java:51-61 | every (kind, namespace) pair has its subscription |
| InformerCreator.BuildOwner | src/main/java/io/k8swatcher/annotation/processor/InformerCreator.java:38-68 | fails iff the namespace query needs a client the context lacks, or subscriptions must be opened without one, and then with NoClient; on success the namespaces are the selected ones and the topology is well formed: exactly one subscription per (kind, namespace) pair, through the context's client, with the kind's methods, the label filter and the same clamped period for informer and handler |
| InformerCreator.OnePerPair | src/main/java/io/k8swatcher/annotation/processor/InformerCreator.java:51-61 | in a well-formed topology two subscriptions for the same kind and namespace are the same subscription |
| InformerCreator.EmptyNamespacesOpenNothing | src/main/java/io/k8swatcher/annotation/processor/InformerCreator.java:48-68 | an empty namespace selection opens no subscription and does not fail |
| InformerCreator.ClientContextBuilds | src/main/java/io/k8swatcher/annotation/processor/InformerCreator.java:47-61 | a context with a client always builds |
| InformerCreator.BuildAll | src/main/java/io/k8swatcher/annotation/processor/InformerCreator.java:38-68 | one topology per context, in order, each that context's build; otherwise the error of the first context whose build fails |
| InformerCreator.FirstUnbuiltShift | src/main/java/io/k8swatcher/annotation/processor/InformerCreator.java:38-68 | the first failing build after a successful first build is the first failing build of the whole list |
| InformerCreator.CreateInformers | src/main/java/io/k8swatcher/annotation/processor/InformerCreator.java:34-70 | succeeds iff every owner with `@Watch` methods resolves and its context builds; each topology belongs to that owner's merged context, watches the namespaces selected for it and is well formed; a failing context list fails with its own error, otherwise the failure is the NoClient error of the first context whose build fails |
| InformerCreator.CreateInformersSucceeds | src/main/java/io/k8swatcher/annotation/processor/InformerCreator.java:34-70 | given the context list, every context builds iff every owner with `@Watch` methods resolves and builds |
| InformerCreator.ValidatedStartupCreatesInformers | src/main/java/io/k8swatcher/annotation/processor/InformerCreator.java:34-116 | after `init`, `postConstruct` and an accepted `validateInformerAnnotations`, creating the informers succeeds |
| InformerCreator.UnwatchedOwnerOpensNothing | src/main/java/io/k8swatcher/annotation/processor/InformerCreator.java:104-106 | adding an owner without `@Watch` methods changes nothing |
| InformerCreator.SubscriptionHandlerCallsOwnMethods | src/main/java/io/k8swatcher/annotation/processor/InformerCreator.java:57-59 | a subscription's handler only calls the owner's methods for that resource kind and the notification's event kind |
| InformerCreator.HandlerCallsOnlyItsMethods | src/main/java/io/k8swatcher/annotation/processor/InformerCreator.java:57-59 | a handler built for a bean's methods only ever calls that bean with those methods, each for the notification's kind |
| InformerCreator.InformerCount | src/main/java/io/k8swatcher/annotation/processor/InformerCreator.java:36-61 | the informer list has exactly the sum over owners of |kinds| × |namespaces| entries |
| IndexInformerResHandler.Declared | src/main/java/io/k8swatcher/annotation/processor/IndexInformerResHandler.java:50-51 | the methods the handler holds for a kind; a kind with no entry (`methods.get` returning null) has none |
| IndexInformerResHandler.MethodsOf | src/main/java/io/k8swatcher/annotation/processor/IndexInformerResHandler.java:43-44 | the group of an event kind holds exactly the methods of that kind |
| IndexInformerResHandler.Group | src/main/java/io/k8swatcher/annotation/processor/IndexInformerResHandler.java:43-44 | a kind has an entry iff some method handles it; the entry is that kind's methods in order; an absent kind has no methods |
| IndexInformerResHandler.NewHandler | src/main/java/io/k8swatcher/annotation/processor/IndexInformerResHandler.java:40-46 | a new handler holds each kind's methods and an empty queue |
| IndexInformerResHandler.GroupPartition | src/main/java/io/k8swatcher/annotation/processor/IndexInformerResHandler.java:43-44 | the three groups together are a permutation of the methods |
| IndexInformerResHandler.ArgsFor | src/main/java/io/k8swatcher/annotation/processor/IndexInformerResHandler.java:55-89 | add passes (obj); update (old, new); delete (obj) to a one-parameter method and (obj, flag) otherwise |
| IndexInformerResHandler.Tasks | src/main/java/io/k8swatcher/annotation/processor/IndexInformerResHandler.java:52 | one task per method, in order, with that method's arguments |
| IndexInformerResHandler.OnAdd | src/main/java/io/k8swatcher/annotation/processor/IndexInformerResHandler.java:48-61 | appends exactly one task per ADD method, with (obj); nothing else changes |
| IndexInformerResHandler.OnUpdate | src/main/java/io/k8swatcher/annotation/processor/IndexInformerResHandler.java:63-76 | appends exactly one task per UPDATE method, with (old, new); nothing else changes |
| IndexInformerResHandler.OnDelete | src/main/java/io/k8swatcher/annotation/processor/IndexInformerResHandler.java:78-96 | appends exactly one task per DELETE method, with (obj) or (obj, flag) by parameter count; nothing else changes |
| IndexInformerResHandler.TasksOfKind | src/main/java/io/k8swatcher/annotation/processor/IndexInformerResHandler.java:43-60 | the tasks of a kind's group equal the reference schedule over the declared methods |
| IndexInformerResHandler.NotifyMatchesExpected | src/main/java/io/k8swatcher/annotation/processor/IndexInformerResHandler.java:48-96 | any notification appends exactly the reference schedule: the matching methods in declaration order |
| IndexInformerResHandler.NotifyCallsDeclared | src/main/java/io/k8swatcher/annotation/processor/IndexInformerResHandler.java:48-96 | a notification keeps the queue and appends, for its kind, the k-th declared method as the k-th new task, on the handler's bean |
| IndexInformerResHandler.NotifyCallsOnlyDeclared | src/main/java/io/k8swatcher/annotation/processor/IndexInformerResHandler.java:48-96 | every task a notification appends calls the handler's bean with a method declared for that kind |
| IndexInformerResHandler.NoMethodsNoTasks | src/main/java/io/k8swatcher/annotation/processor/IndexInformerResHandler.java:50-51 | a kind without methods queues nothing |
| IndexInformerResHandler.AllEventsExample | src/main/java/io/k8swatcher/annotation/processor/IndexInformerResHandler.java:78-96 | with one method per kind plus a flag-taking DELETE method, a delete queues both DELETE methods with their arguments and an add queues only the ADD method |
| IndexInformerResHandler.ExpectedExample | src/main/java/io/k8swatcher/annotation/processor/IndexInformerResHandler.java:48-96 | the reference schedule of that bean for a delete and an add |
| IndexInformerResHandler.DeliverIsFifo | src/main/java/io/k8swatcher/annotation/processor/IndexInformerResHandler.java:45-52 | a run of notifications appends each one's tasks after the earlier ones, in notification order |

## Left out

- `InformerEntrypoint` is not part of this model. It validates, creates informers, starts them and polls them with `Thread.sleep`. Its validation order is noted above.
- `InformerEventExecutor` is not part of this model, because the handler does not use it. Its point is concurrency.
- The legacy `io.k8informer` and `io.informerwatch` packages are left out. They are superseded variants with different rules.
- Running the queued tasks is left out: `SerialExecutor` execution, `ctx.getBean`, `ReflectionUtils.invokeMethod` and wrapping handler exceptions. The queue records what is submitted, in order.
- fabric8 client calls are reduced to parameters or records:
  - namespace listing becomes `allNs` and `nsWithLabels`;
  - `runnableInformer` and `addEventHandlerWithResyncPeriod` become `Subscription` records;
  - building the default client becomes `built`;
  - `close` becomes the order `Shutdown` reports.
- Reflection is abstracted. `getMethods` becomes each owner's `watchMethods` sequence, and `isAssignableFrom` becomes `assignable`. The difference between `bean.getClass()` (a proxy) and `AopUtils.getTargetClass(bean)` is not modelled: an owner has one class.
- HashMap and Set iteration order is left open:
  - owners are an arbitrary sequence;
  - subscriptions of one owner are a set;
  - `Shutdown` closes in some order of the names.
- Log and exception message texts are left out. So is the sorted key list in the duplicate-key message: `Errors.DuplicateKey` keeps the keys in declaration order.
- Null values are not modelled. Configuration fields are non-null except the resync period, as the field initialisers make them. Null elements in annotation arrays cannot occur.
- Failures of the Kubernetes client's own calls are not modelled: the namespace list calls (InformerCreator.java:83, 87) and `runnableInformer` (InformerCreator.java:96, 99). `allNs` and `nsWithLabels` are total functions and opening a subscription cannot fail, so `CreateInformers` fails only with the package's own errors.
- The resync period is an unbounded `int` rather than a Java `long`. The code does no arithmetic on it, so there is no wrap-around to model.
- AnnotationValidator.CheckAddParams: states only the arity error; the full accept condition for ADD is stated on `AnnotationValidator.CheckWatchMethod`.
- AnnotationValidator.CheckUpdateParams: states only the arity error; the full accept condition for UPDATE is stated on `AnnotationValidator.CheckWatchMethod`.
- AnnotationValidator.CheckDeleteParams: states only the arity error; the full accept condition for DELETE is stated on `AnnotationValidator.CheckWatchMethod`.
- AnnotationValidator.ValidateLabels: which duplicate-key failure is reported (nsNames, then nsLabels, then resLabels) is in the body, not the contract.
- InformerCreator.ParseLabelsFrom: the contract names the failure kinds, but not which entry fails first.
