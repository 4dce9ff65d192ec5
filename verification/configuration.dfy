/** The output configuration of the v1.1.0 logger and the splitting of a
    call's keyword arguments into configuration overrides and the rest. */
module Configuration {
  import opened Values

  /** Option name to value. Python keeps it in a dict, so `set_config` may
      store values of any type under a known name. */
  type Config = map<string, Value>

  const TimestampFormatKey := "timestamp_format"
  const TimestampKey := "timestamp"
  const ScreenKey := "screen"
  const FileKey := "file"

  /** The recognised option names: exactly those of a fresh configuration. */
  const ConfigKeys: set<string> := {TimestampFormatKey, TimestampKey, ScreenKey, FileKey}

  /** The configuration of a fresh instance. */
  function Default(): (c: Config)
    ensures c.Keys == ConfigKeys
    ensures c[TimestampFormatKey] == Str("[%Y-%m-%d %H:%M:%S]")
    ensures !Truthy(c[TimestampKey]) && Truthy(c[ScreenKey]) && Truthy(c[FileKey])
  {
    map[TimestampFormatKey := Str("[%Y-%m-%d %H:%M:%S]"),
        TimestampKey := Bool(false),
        ScreenKey := Bool(true),
        FileKey := Bool(true)]
  }

  /** The value an option takes for one call: the call's override if it
      names the option, the stored value otherwise. */
  function Setting(conf: Config, kw: Kwargs, key: string): Value
    requires key in conf
  {
    if key in kw then kw[key] else conf[key]
  }

  /** `set_temp_config`: a copy of `conf` with every known option that `kw`
      names overridden, paired with the keyword arguments that name no option. */
  function SetTempConfig(conf: Config, kw: Kwargs): (r: (Config, Kwargs))
    ensures r.0.Keys == conf.Keys
    ensures r.1.Keys == kw.Keys - conf.Keys
    // every keyword argument lands in exactly one of the two maps, unchanged
    ensures forall k :: k in kw && k in conf ==> r.0[k] == kw[k]
    ensures forall k :: k in r.1 ==> r.1[k] == kw[k]
    // options the call does not name keep their stored value
    ensures forall k :: k in conf && k !in kw ==> r.0[k] == conf[k]
  {
    (map k | k in conf :: if k in kw then kw[k] else conf[k],
     map k | k in kw && k !in conf :: kw[k])
  }

  /** The loop of `set_temp_config` as written: walk the keyword names,
      overwriting known options in the copy and collecting the others. The
      names are visited in an arbitrary order; since they are distinct the
      result does not depend on it. */
  method SplitKwargs(conf: Config, kw: Kwargs) returns (temp: Config, excess: Kwargs)
    ensures (temp, excess) == SetTempConfig(conf, kw)
  {
    temp := conf;
    excess := map[];
    var pending := kw.Keys;
    while pending != {}
      invariant pending <= kw.Keys
      invariant temp.Keys == conf.Keys
      invariant forall k :: k in conf ==> temp[k] == (if k in kw && k !in pending then kw[k] else conf[k])
      invariant excess.Keys == (kw.Keys - pending) - conf.Keys
      invariant forall k :: k in excess ==> excess[k] == kw[k]
      decreases pending
    {
      var key :| key in pending;
      if key in temp {
        temp := temp[key := kw[key]];
      } else {
        excess := excess[key := kw[key]];
      }
      pending := pending - {key};
    }
    var (t, e) := SetTempConfig(conf, kw);
    assert temp == t;
    assert excess == e;
  }

  /** `set_config`: the overridden copy becomes the configuration. */
  function SetConfig(conf: Config, kw: Kwargs): (c: Config)
    ensures c.Keys == conf.Keys
    ensures forall k :: k in conf && k in kw ==> c[k] == kw[k]
    ensures forall k :: k in conf && k !in kw ==> c[k] == conf[k]
  {
    SetTempConfig(conf, kw).0
  }

  /** The two halves of the split give back the call's keyword arguments:
      nothing is lost, nothing invented. */
  lemma SplitRecombines(conf: Config, kw: Kwargs)
    ensures var r := SetTempConfig(conf, kw);
            (map k | k in kw && k in r.0 :: r.0[k]) + r.1 == kw
  {
  }

  /** The temporary configuration never holds a name outside the
      configuration, and the forwarded arguments never hold an option name. */
  lemma SplitSeparatesNames(conf: Config, kw: Kwargs)
    ensures var r := SetTempConfig(conf, kw);
            r.0.Keys !! r.1.Keys && r.0.Keys + r.1.Keys == conf.Keys + kw.Keys
  {
  }

  /** Applying the same `set_config` twice is the same as applying it once. */
  lemma SetConfigIdempotent(conf: Config, kw: Kwargs)
    ensures SetConfig(SetConfig(conf, kw), kw) == SetConfig(conf, kw)
  {
  }

  /** Two `set_config` calls in a row act as one with the merged keyword
      arguments, the later call winning on a name both give. */
  lemma SetConfigComposes(conf: Config, first: Kwargs, second: Kwargs)
    ensures SetConfig(SetConfig(conf, first), second) == SetConfig(conf, first + second)
  {
  }
}
