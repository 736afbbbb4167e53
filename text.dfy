/**
 * Trimming of device replies: only space, tab, line feed and carriage return
 * are removed, from both ends.
 */
module Text {

  /** The characters of the set " \t\n\r" that trim removes. */
  predicate IsTrimSpace(c: char) {
    c == ' ' || c == '\t' || c == '\n' || c == '\r'
  }

  predicate AllTrimSpace(s: string) {
    forall k :: 0 <= k < |s| ==> IsTrimSpace(s[k])
  }

  /** Neither the first nor the last character is one that trim removes. */
  predicate NoEdgeSpace(s: string) {
    s == [] || (!IsTrimSpace(s[0]) && !IsTrimSpace(s[|s| - 1]))
  }

  /** find_first_not_of(" \t\n\r", from), with |s| standing for npos. */
  function FindFirstNotSpace(s: string, from: nat): (i: nat)
    requires from <= |s|
    ensures from <= i <= |s|
    ensures forall k :: from <= k < i ==> IsTrimSpace(s[k])
    ensures i < |s| ==> !IsTrimSpace(s[i])
    decreases |s| - from
  {
    if from == |s| || !IsTrimSpace(s[from]) then from else FindFirstNotSpace(s, from + 1)
  }

  /** find_last_not_of(" \t\n\r") over s[..upto], with -1 standing for npos. */
  function FindLastNotSpace(s: string, upto: nat): (j: int)
    requires upto <= |s|
    ensures -1 <= j < upto
    ensures forall k :: j < k < upto ==> IsTrimSpace(s[k])
    ensures j >= 0 ==> !IsTrimSpace(s[j])
  {
    if upto == 0 then -1
    else if !IsTrimSpace(s[upto - 1]) then upto - 1
    else FindLastNotSpace(s, upto - 1)
  }

  /**
   * The reply with its leading and trailing trim characters removed: a
   * contiguous piece of s, everything around it trim characters, and itself
   * starting and ending with a kept character.
   */
  function Trim(s: string): (t: string)
    ensures |t| <= |s|
    ensures NoEdgeSpace(t)
    ensures t == [] <==> AllTrimSpace(s)
    ensures exists i :: 0 <= i <= |s| - |t| && t == s[i..i + |t|]
                        && AllTrimSpace(s[..i]) && AllTrimSpace(s[i + |t|..])
  {
    var first := FindFirstNotSpace(s, 0);
    if first == |s| then
      assert s[0..0] == [] && s[..0] == [] && s[0..] == s;
      ""
    else
      var last := FindLastNotSpace(s, |s|);
      var t := s[first..last + 1];
      assert t == s[first..first + |t|];
      assert AllTrimSpace(s[..first]);
      assert AllTrimSpace(s[first + |t|..]);
      t
  }

  /** A trimmed string padded on both sides with trim characters trims back to itself. */
  lemma TrimPadded(a: string, t: string, b: string)
    requires AllTrimSpace(a) && AllTrimSpace(b) && NoEdgeSpace(t)
    ensures Trim(a + t + b) == t
  {
    var s := a + t + b;
    if t == [] {
      assert s == a + b;
      assert AllTrimSpace(s) by {
        forall k | 0 <= k < |s| ensures IsTrimSpace(s[k]) {
          if k < |a| { assert s[k] == a[k]; } else { assert s[k] == b[k - |a|]; }
        }
      }
    } else {
      assert s[|a|] == t[0];
      assert s[|a| + |t| - 1] == t[|t| - 1];
      var first := FindFirstNotSpace(s, 0);
      assert first == |a|;
      var last := FindLastNotSpace(s, |s|);
      assert last == |a| + |t| - 1;
      assert s[first..last + 1] == t;
    }
  }

  /** Trimming twice is trimming once. */
  lemma TrimIdempotent(s: string)
    ensures Trim(Trim(s)) == Trim(s)
  {
    var t := Trim(s);
    TrimPadded("", t, "");
    assert "" + t + "" == t;
  }
}
