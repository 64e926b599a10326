/** The file name under which a run is saved. Creating the directory and
    writing the JSON document are not part of this model. */
module Persistence {
  import opened Values
  import opened Suite

  const Unknown: string := "unknown"

  /** The metadata tier of a run, or `unknown` for an output without metadata. */
  function MetadataTier(data: SuiteOutput): (tier: string)
    ensures data.Run? ==> tier == data.metadata.tier
    ensures data.NoMatch? ==> tier == Unknown
  {
    if data.Run? then data.metadata.tier else Unknown
  }

  /** The metadata mode of a run, or `unknown` for an output without metadata. */
  function MetadataMode(data: SuiteOutput): (mode: string)
    ensures data.Run? ==> mode == data.metadata.mode
    ensures data.NoMatch? ==> mode == Unknown
  {
    if data.Run? then data.metadata.mode else Unknown
  }

  /** `eval_<tier>_<mode>_<timestamp>.json`, where `timestamp` is the
      whole-second clock reading taken when saving. */
  function FileName(data: SuiteOutput, timestamp: string): (name: string)
    ensures |name| == 12 + |MetadataTier(data)| + |MetadataMode(data)| + |timestamp|
    ensures name[..5] == "eval_" && name[|name| - 5..] == ".json"
  {
    "eval_" + MetadataTier(data) + "_" + MetadataMode(data) + "_" + timestamp + ".json"
  }

  /** Splits `s` at its first underscore, if it has one. */
  function SplitAtUnderscore(s: string): (r: Option<(string, string)>)
    ensures r.None? <==> '_' !in s
    ensures r.Some? ==> s == r.value.0 + "_" + r.value.1 && '_' !in r.value.0
  {
    if s == [] then None
    else if s[0] == '_' then Some(([], s[1..]))
    else match SplitAtUnderscore(s[1..])
      case None => None
      case Some((head, tail)) => Some(([s[0]] + head, tail))
  }

  /** Reads the tier, mode and timestamp back out of a file name: the
      inverse of `FileName`, used to state that names lose no information. */
  function ParseFileName(name: string): (r: Option<(string, string, string)>)
    ensures |name| < 12 ==> r.None?
    ensures r.Some? ==> '_' !in r.value.0 && '_' !in r.value.1
    ensures r.Some? ==> name == "eval_" + r.value.0 + "_" + r.value.1 + "_" + r.value.2 + ".json"
  {
    if |name| < 10 || name[..5] != "eval_" || name[|name| - 5..] != ".json" then None
    else
      var middle := name[5..|name| - 5];
      assert name == name[..5] + middle + name[|name| - 5..];
      match SplitAtUnderscore(middle)
      case None => None
      case Some((tier, rest)) =>
        match SplitAtUnderscore(rest)
        case None => None
        case Some((mode, timestamp)) => Some((tier, mode, timestamp))
  }

  /** Splitting `a_b` at its first underscore gives back `a` and `b` when `a`
      has no underscore. */
  lemma {:induction false} SplitJoined(a: string, b: string)
    requires '_' !in a
    ensures SplitAtUnderscore(a + "_" + b) == Some((a, b))
  {
    if a != [] {
      assert (a + "_" + b)[1..] == a[1..] + "_" + b;
      SplitJoined(a[1..], b);
      assert [a[0]] + a[1..] == a;
    }
  }

  /** A file name gives back the tier, mode and timestamp it was built from,
      provided tier and mode have no underscore (the timestamp may). */
  lemma FileNameRoundTrip(data: SuiteOutput, timestamp: string)
    requires '_' !in MetadataTier(data) && '_' !in MetadataMode(data)
    ensures ParseFileName(FileName(data, timestamp))
         == Some((MetadataTier(data), MetadataMode(data), timestamp))
  {
    var tier, mode := MetadataTier(data), MetadataMode(data);
    var name := FileName(data, timestamp);
    assert name[5..|name| - 5] == tier + "_" + (mode + "_" + timestamp);
    SplitJoined(tier, mode + "_" + timestamp);
    SplitJoined(mode, timestamp);
  }

  /** Two saves get the same file name only when tier, mode and timestamp all
      agree (for tier and mode names without underscores). */
  lemma FileNameInjective(d1: SuiteOutput, t1: string, d2: SuiteOutput, t2: string)
    requires '_' !in MetadataTier(d1) && '_' !in MetadataMode(d1)
    requires '_' !in MetadataTier(d2) && '_' !in MetadataMode(d2)
    requires FileName(d1, t1) == FileName(d2, t2)
    ensures MetadataTier(d1) == MetadataTier(d2)
    ensures MetadataMode(d1) == MetadataMode(d2)
    ensures t1 == t2
  {
    FileNameRoundTrip(d1, t1);
    FileNameRoundTrip(d2, t2);
  }

  /** The error-shaped output of an empty selection has no metadata, so it is
      saved under `unknown` for both tier and mode. */
  lemma NoMatchFileName(error: string, timestamp: string)
    ensures FileName(NoMatch(error), timestamp) == "eval_unknown_unknown_" + timestamp + ".json"
  {
  }

  /** Two runs with the same tier and mode saved within the same second get the
      same name, whatever their results: the later write replaces the earlier. */
  lemma SameSecondSameName(d1: SuiteOutput, d2: SuiteOutput, timestamp: string)
    requires MetadataTier(d1) == MetadataTier(d2) && MetadataMode(d1) == MetadataMode(d2)
    ensures FileName(d1, timestamp) == FileName(d2, timestamp)
  {
  }
}
