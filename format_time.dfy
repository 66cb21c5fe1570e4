/**
 * `Album.formatTime`: elapsed seconds as "minutes:seconds" for the player
 * bar, with a placeholder when there is no time to show. Neither field is
 * zero-padded, so 125 seconds reads "2:5".
 */
module FormatTime {
  import opened Wrappers
  import opened JsNumber
  import opened Decimal

  /** What is shown for a time that is NaN or exactly zero. */
  const Placeholder: string := "-:--"

  /**
   * `Math.floor(t / 60)` minutes and `Math.floor(t - minutes * 60)`
   * seconds split the whole seconds of `t` into a minute count and a
   * remainder below a minute, for negative `t` as well.
   */
  lemma ClockSplit(t: real, minutes: int, seconds: int)
    requires minutes == (t / 60.0).Floor
    requires seconds == (t - (minutes * 60) as real).Floor
    ensures 0 <= seconds < 60
    ensures 60 * minutes + seconds == t.Floor
  {}

  function FormatTime(t: Num): (r: string)
    ensures r == Placeholder <==> t == NaN || t == Finite(0.0)
    ensures t.Finite? && t.value != 0.0 ==>
      exists minutes: int, seconds: nat ::
        && seconds < 60
        && 60 * minutes + seconds == t.value.Floor
        && r == IntToString(minutes) + ":" + NatToString(seconds)
  {
    if t.NaN? || t.value == 0.0 then Placeholder
    else
      var minutes := (t.value / 60.0).Floor;
      var seconds := (t.value - (minutes * 60) as real).Floor;
      ClockSplit(t.value, minutes, seconds);
      var r := IntToString(minutes) + ":" + IntToString(seconds);
      assert r[|r| - 1] == IntToString(seconds)[|IntToString(seconds)| - 1];
      assert r != Placeholder by { assert Placeholder[|Placeholder| - 1] == '-'; }
      r
  }

  /** The position of the first `c` in `s`. */
  function IndexOf(s: string, c: char): (r: Option<nat>)
    ensures r.None? <==> c !in s
    ensures r.Some? ==> r.value < |s| && s[r.value] == c && c !in s[..r.value]
  {
    if s == [] then None
    else if s[0] == c then Some(0)
    else
      match IndexOf(s[1..], c)
      case None => None
      case Some(k) =>
        assert s[..k + 1] == [s[0]] + s[1..][..k];
        Some(k + 1)
  }

  /**
   * Reads text in the form FormatTime writes back into whole seconds:
   * an integer minute count, ':', then a second count below 60.
   */
  function ElapsedSeconds(r: string): Option<int>
  {
    match IndexOf(r, ':')
    case None => None
    case Some(k) =>
      match (ParseInt(r[..k]), ParseNat(r[k + 1..]))
      case (Some(m), Some(s)) => if s < 60 then Some(60 * m + s) else None
      case _ => None
  }

  /** The placeholder is not the text of any time. */
  lemma PlaceholderIsNotATime()
    ensures ElapsedSeconds(Placeholder) == None
  {}

  /** The first `c` after a prefix without one is at the end of the prefix. */
  lemma IndexOfAfterPrefix(a: string, c: char, b: string)
    requires c !in a
    ensures IndexOf(a + [c] + b, c) == Some(|a|)
  {
    var s := a + [c] + b;
    assert s[|a|] == c;
    assert s[..|a|] == a;
  }

  /** Minutes and seconds written as FormatTime writes them read back to their total. */
  lemma ClockReadsBack(minutes: int, seconds: nat)
    requires seconds < 60
    ensures ElapsedSeconds(IntToString(minutes) + ":" + NatToString(seconds)) == Some(60 * minutes + seconds)
  {
    var a, b := IntToString(minutes), NatToString(seconds);
    var r := a + ":" + b;
    assert ':' !in a by {
      forall k | 0 <= k < |a| ensures a[k] != ':' { }
    }
    IndexOfAfterPrefix(a, ':', b);
    assert r[..|a|] == a;
    assert r[|a| + 1..] == b;
    ParseIntToString(minutes);
    ParseNatToString(seconds);
  }

  /** Every shown time can be read back to the whole seconds it stands for. */
  lemma FormatTimeReadsBack(t: Num)
    requires t.Finite? && t.value != 0.0
    ensures ElapsedSeconds(FormatTime(t)) == Some(t.value.Floor)
  {
    var minutes := (t.value / 60.0).Floor;
    var seconds := (t.value - (minutes * 60) as real).Floor;
    ClockSplit(t.value, minutes, seconds);
    assert FormatTime(t) == IntToString(minutes) + ":" + NatToString(seconds);
    ClockReadsBack(minutes, seconds);
  }

  lemma FormatTimeExamples()
    ensures FormatTime(NaN) == Placeholder
    ensures FormatTime(Finite(0.0)) == Placeholder
    ensures FormatTime(Finite(125.0)) == "2:5"
    ensures FormatTime(Finite(605.5)) == "10:5"
  {
    assert (125.0 / 60.0).Floor == 2;
    assert (605.5 / 60.0).Floor == 10;
    assert NatToString(10) == "10";
  }
}
