/**
 * `AwareUtils`: host-name cleaning and the time-zone offset in hours.
 * The device-id helper is platform I/O and is not modelled here.
 */
module AwareUtils {
  import opened Wrappers

  /** `pat` occurs in `s` starting at index `i`. */
  predicate OccursAt(s: string, pat: string, i: nat) {
    i + |pat| <= |s| && s[i..i + |pat|] == pat
  }

  predicate Contains(s: string, pat: string) {
    exists i: nat | i <= |s| :: OccursAt(s, pat, i)
  }

  /** Index of the first occurrence of `pat` in `s` at or after `from`, as `String.range(of:)` finds it. */
  function FirstOccurrenceFrom(s: string, pat: string, from: nat): (r: Option<nat>)
    requires |pat| > 0
    ensures r.Some? ==> from <= r.value && OccursAt(s, pat, r.value)
    ensures r.Some? ==> forall j: nat :: from <= j < r.value ==> !OccursAt(s, pat, j)
    ensures r.None? ==> forall j: nat :: from <= j ==> !OccursAt(s, pat, j)
    decreases |s| - from
  {
    if from + |pat| > |s| then None
    else if s[from..from + |pat|] == pat then Some(from)
    else FirstOccurrenceFrom(s, pat, from + 1)
  }

  function FirstOccurrence(s: string, pat: string): (r: Option<nat>)
    requires |pat| > 0
    ensures r.Some? <==> Contains(s, pat)
    ensures r.Some? ==> OccursAt(s, pat, r.value) && forall j: nat :: j < r.value ==> !OccursAt(s, pat, j)
  {
    FirstOccurrenceFrom(s, pat, 0)
  }

  /** `if let range = s.range(of: pat) { s.removeSubrange(range) }` */
  function RemoveFirst(s: string, pat: string): (r: string)
    requires |pat| > 0
    ensures Contains(s, pat) ==> |r| == |s| - |pat|
    ensures !Contains(s, pat) ==> r == s
    ensures Contains(s, pat) ==>
              exists i: nat | i <= |s| :: OccursAt(s, pat, i) && (forall j: nat :: j < i ==> !OccursAt(s, pat, j)) &&
                                          r == s[..i] + s[i + |pat|..]
  {
    match FirstOccurrence(s, pat)
    case None => s
    case Some(i) => s[..i] + s[i + |pat|..]
  }

  const Http := "http://"
  const Https := "https://"

  /** Removes the first "http://" and then the first "https://", wherever they stand. */
  function CleanHostName(hostName: string): (r: string)
    ensures |r| <= |hostName|
    ensures !Contains(hostName, Http) && !Contains(hostName, Https) ==> r == hostName
  {
    RemoveFirst(RemoveFirst(hostName, Http), Https)
  }

  /** A host with no scheme text in it comes back unchanged. */
  lemma CleanHostNameKeepsPlainHost(h: string)
    requires !Contains(h, Http) && !Contains(h, Https)
    ensures CleanHostName(h) == h
  {
  }

  /** The result is the input minus 7 characters if "http://" occurred, minus 8 more if "https://" then occurred. */
  lemma CleanHostNameLength(h: string)
    ensures var mid := RemoveFirst(h, Http);
            |CleanHostName(h)| == |h| - (if Contains(h, Http) then 7 else 0) - (if Contains(mid, Https) then 8 else 0)
    ensures |CleanHostName(h)| <= |h|
  {
  }

  /** Removing a prefix occurrence: the first occurrence of `pat` in `pat + h` is at 0. */
  lemma RemoveFirstOfPrefix(pat: string, h: string)
    requires |pat| > 0
    ensures RemoveFirst(pat + h, pat) == h
  {
    assert OccursAt(pat + h, pat, 0) by { assert (pat + h)[0..|pat|] == pat; }
    assert (pat + h)[|pat|..] == h;
  }

  /** An occurrence of `pat` inside the tail `h` of `p + h`, seen from `h`. */
  lemma OccurrenceInTail(p: string, h: string, pat: string, i: nat)
    requires |p| <= i && OccursAt(p + h, pat, i)
    ensures OccursAt(h, pat, i - |p|)
  {
    assert (p + h)[i..i + |pat|] == h[i - |p|..i - |p| + |pat|];
  }

  /** `cleanHostName("http://" + h) == h` when `h` has no "https://" of its own. */
  lemma {:induction false} CleanHostNameStripsHttp(h: string)
    requires !Contains(h, Https)
    ensures CleanHostName(Http + h) == h
  {
    RemoveFirstOfPrefix(Http, h);
  }

  /** `cleanHostName("https://" + h) == h` when `h` has no "http://" of its own. */
  lemma {:induction false} CleanHostNameStripsHttps(h: string)
    requires !Contains(h, Http)
    ensures CleanHostName(Https + h) == h
  {
    var s := Https + h;
    forall i: nat | i <= |s| ensures !OccursAt(s, Http, i) {
      if i >= |Https| {
        if OccursAt(s, Http, i) {
          OccurrenceInTail(Https, h, Http, i);
        }
      } else if i + |Http| <= |s| {
        if i == 0 {
          assert s[i..i + |Http|][4] != Http[4];
        } else {
          assert s[i..i + |Http|][0] != Http[0];
        }
      }
    }
    assert !Contains(s, Http);
    RemoveFirstOfPrefix(Https, h);
  }

  /**
   * A "http://" in the middle of the host is removed where it stands; the text on both sides is kept.
   * "http://" has no proper suffix that is also its prefix, so no earlier occurrence can straddle `a`.
   */
  lemma {:induction false} CleanHostNameStripsInnerHttp(a: string, b: string)
    requires !Contains(a, Http) && !Contains(a + b, Https)
    ensures CleanHostName(a + Http + b) == a + b
  {
    var s := a + Http + b;
    assert OccursAt(s, Http, |a|) by { assert s[|a|..|a| + |Http|] == Http; }
    forall j: nat | j < |a| ensures !OccursAt(s, Http, j) {
      if j + |Http| <= |a| {
        assert a[j..j + |Http|] == s[j..j + |Http|];
        assert !OccursAt(a, Http, j);
      } else {
        assert s[j..j + |Http|][|a| - j] == s[|a|] == 'h';
        assert forall d | 1 <= d < |Http| :: Http[d] != 'h';
      }
    }
    assert FirstOccurrence(s, Http) == Some(|a|);
    assert s[..|a|] == a && s[|a| + |Http|..] == b;
  }

  /** Swift's `Int` division, which truncates toward zero. */
  function TruncDiv(a: int, b: int): (q: int)
    requires b > 0
    ensures a >= 0 ==> q >= 0
    ensures a < 0 ==> q <= 0
    ensures a >= 0 ==> 0 <= a - q * b < b
    ensures a < 0 ==> -b < a - q * b <= 0
  {
    if a >= 0 then a / b else -((-a) / b)
  }

  /** Truncation is symmetric about zero, unlike Dafny's Euclidean `/`. */
  lemma TruncDivIsOdd(a: int, b: int)
    requires b > 0
    ensures TruncDiv(-a, b) == -TruncDiv(a, b)
  {
  }

  /** `TimeZone.current.secondsFromGMT() / 60 / 60`, with the seconds offset as a parameter. */
  function GetTimeZone(secondsFromGMT: int): (hours: int)
    ensures secondsFromGMT >= 0 ==> hours >= 0
    ensures secondsFromGMT <= 0 ==> hours <= 0
    ensures -3600 < secondsFromGMT < 3600 ==> hours == 0
  {
    TruncDiv(TruncDiv(secondsFromGMT, 60), 60)
  }

  lemma NatDivTwice(a: nat)
    ensures (a / 60) / 60 == a / 3600
  {
    var q1, r1 := a / 60, a % 60;
    var q2, r2 := q1 / 60, q1 % 60;
    assert a == 60 * q1 + r1;
    assert q1 == 60 * q2 + r2;
    assert a == 3600 * q2 + (60 * r2 + r1);
    assert 0 <= 60 * r2 + r1 < 3600;
  }

  /** Dividing by 60 twice is dividing the offset by 3600, rounding toward zero in both directions. */
  lemma {:induction false} GetTimeZoneIsHoursTruncated(s: int)
    ensures GetTimeZone(s) == TruncDiv(s, 3600)
    ensures s >= 0 ==> GetTimeZone(s) == s / 3600
    ensures s < 0 ==> GetTimeZone(s) == -((-s) / 3600)
  {
    if s >= 0 {
      NatDivTwice(s);
    } else {
      NatDivTwice(-s);
      assert TruncDiv(s, 60) == -((-s) / 60);
      if (-s) / 60 == 0 {
        assert -s < 60;
      }
    }
  }

  /** UTC-3:30 is -12600 seconds and gives -3, not the -4 that flooring would give. */
  lemma GetTimeZoneOfMinusThreeThirty()
    ensures GetTimeZone(-12600) == -3
  {
  }
}
