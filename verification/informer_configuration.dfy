/** The externally supplied configuration record that overrides an owner's annotation. */
module InformerConfiguration {
  import opened Wrappers

  /**
    One configuration entry. A missing resync period is `None` (a null `Long`); the
    other fields use the empty collection or the empty string for "not set".
  */
  datatype Config = Config(
    nsLabels: map<string, string>,
    resLabels: map<string, string>,
    resyncPeriod: Option<int>,
    clientName: string,
    nsNames: set<string>)
  {
    /** Whether every field is at its "not set" value. */
    predicate IsUnset() {
      && nsLabels == map[]
      && resLabels == map[]
      && resyncPeriod == None
      && clientName == ""
      && nsNames == {}
    }
  }

  /** The configuration the no-argument constructor builds. */
  const NoArgs: Config := Config(map[], map[], None, "", {})

  /** The no-argument configuration sets nothing, and it is the only one that sets nothing. */
  lemma NoArgsIsUnset(c: Config)
    ensures NoArgs.IsUnset()
    ensures c.IsUnset() <==> c == NoArgs
  {
  }

  /** The all-arguments constructor stores its five arguments unchanged. */
  lemma AllArgsStoresFields(
    nsLabels: map<string, string>, resLabels: map<string, string>,
    resyncPeriod: Option<int>, clientName: string, nsNames: set<string>)
    ensures var c := Config(nsLabels, resLabels, resyncPeriod, clientName, nsNames);
      && c.nsLabels == nsLabels && c.resLabels == resLabels
      && c.resyncPeriod == resyncPeriod && c.clientName == clientName && c.nsNames == nsNames
  {
  }

  /** Two configurations are equal exactly when all five fields are equal. */
  lemma EqualityIsStructural(a: Config, b: Config)
    ensures a == b <==>
      && a.nsLabels == b.nsLabels && a.resLabels == b.resLabels
      && a.resyncPeriod == b.resyncPeriod && a.clientName == b.clientName
      && a.nsNames == b.nsNames
  {
  }
}
