/** truncateUtf8: cutting a string so that its UTF-8 encoding stays within a byte bound. */
module Truncate {
  import opened Common
  import opened Json
  import Serialized

  const TRUNCATION_SUFFIX: Text := Chars("…[truncated]")

  /** The number of units in the longest prefix of s that encodes to at most `budget` bytes. */
  function FittingUnits(s: Text, budget: nat): (k: nat)
    ensures k <= |s| && Utf8(s[..k]) <= budget
    ensures k < |s| ==> Utf8(s[..k + 1]) > budget
  {
    if Utf8(s) <= budget then
      assert s[..|s|] == s; |s|
    else
      var init := s[..|s| - 1];
      var k := FittingUnits(init, budget);
      assert init[..k] == s[..k];
      assert k < |init| ==> init[..k + 1] == s[..k + 1];
      assert k == |init| ==> s[..k + 1] == s;
      k
  }

  /** What a bounded string becomes. */
  function Truncated(s: Text, maxBytes: nat): Text {
    if Utf8(s) <= maxBytes then s
    else s[..FittingUnits(s, Max(0, maxBytes - Utf8(TRUNCATION_SUFFIX)))] + TRUNCATION_SUFFIX
  }

  /** Any prefix length between one that fits and one that does not is the longest. */
  lemma FittingUnitsUnique(s: Text, budget: nat, k: nat)
    requires k <= |s| && Utf8(s[..k]) <= budget
    requires k < |s| ==> Utf8(s[..k + 1]) > budget
    ensures k == FittingUnits(s, budget)
  {
    var f := FittingUnits(s, budget);
    if f < k {
      Utf8Prefix(s, f + 1, k);
    } else if k < f {
      Utf8Prefix(s, k + 1, f);
    }
  }

  /** The bounded string encodes within the bound, whatever surrogate pairs the cut splits. */
  lemma TruncatedFits(s: Text, maxBytes: nat)
    requires maxBytes >= Utf8(TRUNCATION_SUFFIX)
    ensures Utf8(Truncated(s, maxBytes)) <= maxBytes && |Serialized.Encode(Truncated(s, maxBytes))| <= maxBytes
  {
    Serialized.Utf8CountsBytes(Truncated(s, maxBytes));
    if Utf8(s) > maxBytes {
      Utf8Append(s[..FittingUnits(s, maxBytes - Utf8(TRUNCATION_SUFFIX))], TRUNCATION_SUFFIX);
    }
  }

  lemma FittingPrefix(s: Text, maxBytes: nat, k: nat)
    requires var budget := Max(0, maxBytes - Utf8(TRUNCATION_SUFFIX));
             Utf8(s) > maxBytes && k <= |s| && Utf8(s[..k]) <= budget && (k < |s| ==> Utf8(s[..k + 1]) > budget)
    ensures Truncated(s, maxBytes) == s[..k] + TRUNCATION_SUFFIX
  {
    hide FittingUnits; hide Utf8;
    FittingUnitsUnique(s, Max(0, maxBytes - Utf8(TRUNCATION_SUFFIX)), k);
  }

  /** The binary search over prefix lengths finds the longest fitting prefix. */
  method TruncateUtf8(value: Text, maxBytes: nat) returns (bounded: Text)
    ensures bounded == Truncated(value, maxBytes)
  {
    if Utf8(value) <= maxBytes {
      return value;
    }
    var available: nat := Max(0, maxBytes - Utf8(TRUNCATION_SUFFIX));
    var low, high := 0, |value|;
    assert Utf8(value[..0]) == 0 && value[..|value|] == value;
    hide Utf8; hide FittingUnits; hide Truncated;
    while low < high
      invariant 0 <= low <= high <= |value|
      invariant Utf8(value[..low]) <= available
      invariant high < |value| ==> Utf8(value[..high + 1]) > available
    {
      var middle := (low + high + 1) / 2;
      if Utf8(value[..middle]) <= available {
        low := middle;
      } else {
        high := middle - 1;
      }
    }
    assert value[..low] + TRUNCATION_SUFFIX == Truncated(value, maxBytes) by { FittingPrefix(value, maxBytes, low); }
    bounded := value[..low] + TRUNCATION_SUFFIX;
  }
}
