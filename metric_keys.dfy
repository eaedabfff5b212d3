/**
 * Per-family metric keys: the family name with every space replaced by an
 * underscore, followed by `_r2`.
 */
module MetricKeys {

  /** `s.replace(' ', '_')`: only the space character is replaced. */
  function ReplaceSpaces(s: string): (r: string)
    ensures |r| == |s|
    ensures forall i :: 0 <= i < |s| ==> r[i] == (if s[i] == ' ' then '_' else s[i])
  {
    if s == [] then [] else [if s[0] == ' ' then '_' else s[0]] + ReplaceSpaces(s[1..])
  }

  /** The key under which a family's held-out score is logged. */
  function MetricKey(name: string): (key: string)
    ensures ' ' !in key
    ensures |key| == |name| + 3
    ensures key[..|name|] == ReplaceSpaces(name) && key[|name|..] == "_r2"
  {
    ReplaceSpaces(name) + "_r2"
  }

  /** Replacing spaces leaves a space-free name unchanged, so applying it twice changes nothing more. */
  lemma ReplaceSpacesIdempotent(s: string)
    ensures ' ' !in s ==> ReplaceSpaces(s) == s
    ensures ReplaceSpaces(ReplaceSpaces(s)) == ReplaceSpaces(s)
  {
    var r := ReplaceSpaces(s);
    assert ' ' !in r by {
      forall i | 0 <= i < |r| ensures r[i] != ' ' { }
    }
  }

  /** The key of a multi-word family name: "Random Forest" is logged as "Random_Forest_r2". */
  lemma RandomForestKey(name: string)
    requires name == "Random Forest"
    ensures MetricKey(name) == "Random_Forest_r2"
  {
    var r := ReplaceSpaces(name);
    assert |r| == 13 && r[6] == '_';
    assert forall i :: 0 <= i < 13 && i != 6 ==> r[i] == name[i];
  }

  /**
   * Two names give the same key exactly when they agree everywhere except
   * that one may have a space where the other has an underscore.
   */
  lemma SameKeyIff(a: string, b: string)
    ensures MetricKey(a) == MetricKey(b) <==>
              |a| == |b| && forall i :: 0 <= i < |a| ==>
                (a[i] == b[i] || (a[i] in {' ', '_'} && b[i] in {' ', '_'}))
  {
    var ka, kb := MetricKey(a), MetricKey(b);
    if ka == kb {
      assert |a| == |b|;
      forall i | 0 <= i < |a|
        ensures a[i] == b[i] || (a[i] in {' ', '_'} && b[i] in {' ', '_'})
      {
        assert ka[i] == ReplaceSpaces(a)[i] && kb[i] == ReplaceSpaces(b)[i];
      }
    }
    if |a| == |b| && forall i :: 0 <= i < |a| ==> (a[i] == b[i] || (a[i] in {' ', '_'} && b[i] in {' ', '_'})) {
      assert ReplaceSpaces(a) == ReplaceSpaces(b);
    }
  }
}
