/** The map of named configurations bound from the application's settings. */
module ConfigurationProperty {
  import opened Annotations
  import opened InformerConfiguration

  /**
    The map after `postConstruct`: a missing "default" entry is filled with the
    no-argument configuration; everything else is left as it was.
  */
  function PostConstruct(config: map<string, Config>): (r: map<string, Config>)
    ensures DefaultName in r
    ensures DefaultName in config ==> r[DefaultName] == config[DefaultName]
    ensures DefaultName !in config ==> r[DefaultName] == NoArgs
    ensures r.Keys == config.Keys + {DefaultName}
    ensures forall n :: n in config ==> r[n] == config[n]
    ensures |r| <= |config| + 1
  {
    if DefaultName in config then config else config[DefaultName := NoArgs]
  }

  /** Running `postConstruct` a second time changes nothing. */
  lemma PostConstructIdempotent(config: map<string, Config>)
    ensures PostConstruct(PostConstruct(config)) == PostConstruct(config)
  {
  }

  /** With an existing "default" entry the map comes back unchanged; otherwise it grows by exactly one. */
  lemma PostConstructSize(config: map<string, Config>)
    ensures DefaultName in config ==> PostConstruct(config) == config
    ensures DefaultName !in config ==> |PostConstruct(config)| == |config| + 1
  {
  }
}
