/** String helpers of the utils package (src/utils/utils.go): the text
    between two markers, and "hh:mm:ss.ss" times in seconds. */
module Utils {
  import opened Common

  /** GetStringInBetween (src/utils/utils.go:42-53): the text after the first
      occurrence of start up to the next occurrence of end; "" when either
      is missing. */
  function GetStringInBetween(str: string, start: string, end: string): (r: string)
    ensures r != [] ==> IndexOf(str, start).Some? && |end| > 0
    ensures r != [] ==> |start| + |r| + |end| <= |str|
  {
    match IndexOf(str, start)
    case None => ""
    case Some(i) =>
      var s := i + |start|;
      match IndexOf(str[s..], end)
      case None => ""
      case Some(e) => str[s..s + e]
  }

  /** The result is empty when start is missing, when end is missing after
      it, and whenever end is empty. */
  lemma BetweenEmpty(str: string, start: string, end: string)
    ensures IndexOf(str, start).None? ==> GetStringInBetween(str, start, end) == ""
    ensures IndexOf(str, start).Some?
            && IndexOf(str[IndexOf(str, start).value + |start|..], end).None?
            ==> GetStringInBetween(str, start, end) == ""
    ensures |end| == 0 ==> GetStringInBetween(str, start, end) == ""
  {
    if |end| == 0 && IndexOf(str, start).Some? {
      var rest := str[IndexOf(str, start).value + |start|..];
      assert OccursAt(rest, end, 0);
    }
  }

  /** When both markers are found, the string splits as X + start + r + end
      + Y, where X + start ends at the first occurrence of start and r
      holds no occurrence of end. */
  lemma BetweenSplits(str: string, start: string, end: string)
    requires IndexOf(str, start).Some?
    requires IndexOf(str[IndexOf(str, start).value + |start|..], end).Some?
    ensures var i := IndexOf(str, start).value;
            var r := GetStringInBetween(str, start, end);
            && i + |start| + |r| + |end| <= |str|
            && str == str[..i] + start + r + end + str[i + |start| + |r| + |end|..]
            && (forall j :: 0 <= j < i ==> !OccursAt(str, start, j))
            && (forall j :: 0 <= j < |r| ==> !OccursAt(r, end, j))
  {
    var i := IndexOf(str, start).value;
    var rest := str[i + |start|..];
    var e := IndexOf(rest, end).value;
    assert GetStringInBetween(str, start, end) == rest[..e];
    NoOccurrenceInPrefix(rest, end, e);
    FiveParts(str, start, end, i, e);
  }

  /** A string with start at i and end e elements after it, in five parts. */
  lemma FiveParts(str: string, start: string, end: string, i: nat, e: nat)
    requires OccursAt(str, start, i) && OccursAt(str[i + |start|..], end, e)
    ensures var s := i + |start|;
            str == str[..i] + start + str[s..s + e] + end + str[s + e + |end|..]
  {
    var s := i + |start|;
    var head, rest := str[..s], str[s..];
    var mid, tail := str[s..s + e], str[s + e + |end|..];
    assert head[..i] == str[..i] && head[i..] == str[i..s];
    Glue(head, i, str[..i], start);
    assert rest[e..][..|end|] == rest[e..e + |end|] && rest[e..][|end|..] == tail;
    Glue(rest[e..], |end|, end, tail);
    assert rest[..e] == mid;
    Glue(rest, e, mid, end + tail);
    Glue(str, s, str[..i] + start, mid + (end + tail));
    Associate(str[..i], start, mid, end, tail);
  }

  /** A sequence is its first k elements followed by the rest. */
  lemma Glue<T>(x: seq<T>, k: nat, p: seq<T>, q: seq<T>)
    requires k <= |x| && x[..k] == p && x[k..] == q
    ensures x == p + q
  {
    assert x == x[..k] + x[k..];
  }

  /** The part before a first occurrence holds no occurrence. */
  lemma NoOccurrenceInPrefix(s: string, pat: string, e: nat)
    requires e <= |s| && forall j :: 0 <= j < e ==> !OccursAt(s, pat, j)
    ensures forall j :: 0 <= j < e ==> !OccursAt(s[..e], pat, j)
  {
    forall j | 0 <= j < e
      ensures !OccursAt(s[..e], pat, j)
    {
      if j + |pat| <= e {
        assert s[..e][j..j + |pat|] == s[j..j + |pat|] && !OccursAt(s, pat, j);
      }
    }
  }

  /** Conversely, any such split is found: the text between the first start
      and the first end after it comes back. */
  lemma BetweenFinds(x: string, start: string, r: string, end: string, y: string)
    requires forall j :: 0 <= j < |x| ==> !OccursAt(x + start + r + end + y, start, j)
    requires forall j :: 0 <= j < |r| ==> !OccursAt(r + end + y, end, j)
    ensures GetStringInBetween(x + start + r + end + y, start, end) == r
  {
    var str := x + start + r + end + y;
    var u := r + end + y;
    Associate(x, start, r, end, y);
    assert str[|x|..|x| + |start|] == start;
    IndexOfFirst(str, start, |x|);
    assert str[|x| + |start|..] == u;
    assert u[|r|..|r| + |end|] == end;
    IndexOfFirst(u, end, |r|);
  }

  lemma Associate(a: string, b: string, c: string, d: string, e: string)
    ensures a + b + c + d + e == (a + b) + (c + d + e)
    ensures a + b + c + d + e == (a + b) + (c + (d + e))
  {
  }

  /** unicode.IsSpace. */
  predicate IsSpace(c: char)
  {
    var n := c as int;
    || n == 0x20 || 0x09 <= n <= 0x0D || n == 0x85 || n == 0xA0 || n == 0x1680
    || 0x2000 <= n <= 0x200A || n == 0x2028 || n == 0x2029 || n == 0x202F || n == 0x205F
    || n == 0x3000
  }

  predicate AllSpace(s: string)
  {
    forall k :: 0 <= k < |s| ==> IsSpace(s[k])
  }

  function TrimLeft(s: string): (r: string)
    ensures |r| <= |s| && r == s[|s| - |r|..] && AllSpace(s[..|s| - |r|])
    ensures r == [] || !IsSpace(r[0])
  {
    if s != [] && IsSpace(s[0]) then
      var r := TrimLeft(s[1..]);
      assert s[1..][..|s| - 1 - |r|] == s[1..|s| - |r|];
      r
    else s
  }

  function TrimRight(s: string): (r: string)
    ensures |r| <= |s| && r == s[..|r|] && AllSpace(s[|r|..])
    ensures r == [] || !IsSpace(r[|r| - 1])
  {
    if s != [] && IsSpace(s[|s| - 1]) then
      var r := TrimRight(s[..|s| - 1]);
      SpaceSnoc(s, |r|);
      r
    else s
  }

  /** White space from j to the end of all but the last element, then a
      white-space last element: white space from j to the end. */
  lemma SpaceSnoc(s: string, j: nat)
    requires s != [] && j <= |s| - 1 && IsSpace(s[|s| - 1]) && AllSpace(s[..|s| - 1][j..])
    ensures AllSpace(s[j..]) && s[..|s| - 1][..j] == s[..j]
  {
    forall k | 0 <= k < |s| - j
      ensures IsSpace(s[j..][k])
    {
      if k < |s| - 1 - j {
        assert s[j..][k] == s[..|s| - 1][j..][k];
      }
    }
  }

  /** strings.TrimSpace: s with leading and trailing white space removed. */
  function TrimSpace(s: string): (r: string)
  {
    TrimRight(TrimLeft(s))
  }

  /** TrimSpace keeps a middle part of s, removes only white space, and
      leaves no white space at either end. */
  lemma TrimSpaceShape(s: string)
    ensures var r := TrimSpace(s);
            exists a, b :: 0 <= a <= b <= |s| && r == s[a..b] && AllSpace(s[..a]) && AllSpace(s[b..])
    ensures var r := TrimSpace(s);
            r == [] || (!IsSpace(r[0]) && !IsSpace(r[|r| - 1]))
  {
    TrimSpaceSlice(s);
    TrimSpaceMargins(s);
    TrimSpaceEnds(s);
  }

  /** Where TrimSpace's result begins in s. */
  function TrimStart(s: string): nat
  {
    |s| - |TrimLeft(s)|
  }

  lemma TrimSpaceSlice(s: string)
    ensures TrimStart(s) + |TrimSpace(s)| <= |s|
    ensures TrimSpace(s) == s[TrimStart(s)..TrimStart(s) + |TrimSpace(s)|]
  {
    var l := TrimLeft(s);
    var r := TrimRight(l);
    SliceOfSlice(s, |s| - |l|, |r|);
  }

  lemma SliceOfSlice<T>(s: seq<T>, a: nat, k: nat)
    requires a + k <= |s|
    ensures s[a..][..k] == s[a..a + k]
  {
  }

  lemma TrimSpaceMargins(s: string)
    ensures TrimStart(s) + |TrimSpace(s)| <= |s|
    ensures AllSpace(s[..TrimStart(s)]) && AllSpace(s[TrimStart(s) + |TrimSpace(s)|..])
  {
    var l := TrimLeft(s);
    var r := TrimRight(l);
    var a := |s| - |l|;
    assert l == s[a..];
    assert s[a + |r|..] == l[|r|..];
  }

  lemma TrimSpaceEnds(s: string)
    ensures var r := TrimSpace(s);
            r == [] || (!IsSpace(r[0]) && !IsSpace(r[|r| - 1]))
  {
    var l := TrimLeft(s);
    var r := TrimRight(l);
    if r != [] {
      assert r[0] == l[0];
    }
  }


  /** White space around a string does not change what TrimSpace keeps. */
  lemma {:induction false} TrimSpaceIgnoresPadding(pre: string, s: string, post: string)
    requires AllSpace(pre) && AllSpace(post)
    ensures TrimSpace(pre + s + post) == TrimSpace(s)
  {
    assert pre + s + post == pre + (s + post);
    TrimLeftPadding(pre, s + post);
    TrimSpaceSuffix(s, post);
  }

  /** Trailing white space does not change what TrimSpace keeps. */
  lemma TrimSpaceSuffix(s: string, post: string)
    requires AllSpace(post)
    ensures TrimSpace(s + post) == TrimSpace(s)
  {
    var l := TrimLeft(s);
    TrimLeftSuffix(s, post);
    if TrimLeft(s + post) == l + post {
      TrimRightPadding(l, post);
    } else {
      assert l == [] && TrimLeft(s + post) == [];
    }
  }

  lemma {:induction false} TrimLeftPadding(pre: string, s: string)
    requires AllSpace(pre)
    ensures TrimLeft(pre + s) == TrimLeft(s)
  {
    if pre != [] {
      assert (pre + s)[1..] == pre[1..] + s;
      TrimLeftPadding(pre[1..], s);
    } else {
      assert pre + s == s;
    }
  }

  /** Trailing white space is carried through TrimLeft unless everything
      is white space. */
  lemma {:induction false} TrimLeftSuffix(s: string, post: string)
    requires AllSpace(post)
    ensures TrimLeft(s + post) == TrimLeft(s) + post || (TrimLeft(s) == [] && TrimLeft(s + post) == [])
  {
    if s == [] {
      assert s + post == post;
      AllSpaceTrimsAway(post);
    } else if IsSpace(s[0]) {
      assert (s + post)[1..] == s[1..] + post;
      TrimLeftSuffix(s[1..], post);
    }
  }

  lemma {:induction false} AllSpaceTrimsAway(s: string)
    requires AllSpace(s)
    ensures TrimLeft(s) == [] && TrimRight(s) == []
  {
    if s != [] {
      AllSpaceTrimsAway(s[1..]);
      AllSpaceTrimsAway(s[..|s| - 1]);
    }
  }

  lemma {:induction false} TrimRightPadding(s: string, post: string)
    requires AllSpace(post)
    ensures TrimRight(s + post) == TrimRight(s)
    decreases |post|
  {
    if post != [] {
      assert (s + post)[..|s + post| - 1] == s + post[..|post| - 1];
      TrimRightPadding(s, post[..|post| - 1]);
    } else {
      assert s + post == s;
    }
  }

  /** strings.Split(s, string(sep)): the pieces between separators, at
      least one. */
  function Split(s: string, sep: char): (parts: seq<string>)
    ensures |parts| >= 1
  {
    if s == [] then [""]
    else
      var rest := Split(s[1..], sep);
      if s[0] == sep then [""] + rest else [[s[0]] + rest[0]] + rest[1..]
  }

  /** strings.Join. */
  function Join(parts: seq<string>, sep: char): string
  {
    if parts == [] then ""
    else if |parts| == 1 then parts[0]
    else parts[0] + [sep] + Join(parts[1..], sep)
  }

  /** Splitting loses nothing, and no piece holds the separator. */
  lemma {:induction false} SplitJoin(s: string, sep: char)
    ensures Join(Split(s, sep), sep) == s
    ensures forall k :: 0 <= k < |Split(s, sep)| ==> sep !in Split(s, sep)[k]
  {
    if s != [] {
      var rest := Split(s[1..], sep);
      SplitJoin(s[1..], sep);
      if s[0] == sep {
        assert Split(s, sep)[1..] == rest;
        assert s == [] + [sep] + s[1..];
      } else {
        var parts := Split(s, sep);
        assert parts[1..] == rest[1..];
        if |rest| == 1 {
          assert s == [s[0]] + rest[0];
        } else {
          assert Join(rest, sep) == rest[0] + [sep] + Join(rest[1..], sep);
          assert s == [s[0]] + rest[0] + [sep] + Join(rest[1..], sep);
        }
        forall k | 0 <= k < |parts|
          ensures sep !in parts[k]
        {
          if k > 0 {
            assert parts[k] == rest[k];
          }
        }
      }
    }
  }

  /** A string without the separator is a single piece. */
  lemma {:induction false} SplitWithout(s: string, sep: char)
    requires sep !in s
    ensures Split(s, sep) == [s]
  {
    if s != [] {
      SplitWithout(s[1..], sep);
      assert [s[0]] + s[1..] == s;
    }
  }

  /** The first separator ends the first piece. */
  lemma {:induction false} SplitAt(a: string, b: string, sep: char)
    requires sep !in a
    ensures Split(a + [sep] + b, sep) == [a] + Split(b, sep)
  {
    if a == [] {
      assert (a + [sep] + b)[1..] == b;
    } else {
      assert (a + [sep] + b)[1..] == a[1..] + [sep] + b;
      SplitAt(a[1..], b, sep);
      assert [a[0]] + a[1..] == a;
    }
  }

  /** Clock time in seconds from parsed fields: s, m:s or h:m:s. */
  function ClockSeconds(values: seq<real>): real
    requires 1 <= |values| <= 3
  {
    if |values| == 1 then values[0]
    else if |values| == 2 then 60.0 * values[0] + values[1]
    else 3600.0 * values[0] + 60.0 * values[1] + values[2]
  }

  /** The first part ParseFloat rejects, if any. */
  function FirstUnparsed(parts: seq<string>, parseFloat: string -> Option<real>, i: nat): (r: Option<nat>)
    requires i <= |parts|
    ensures r.Some? ==> i <= r.value < |parts| && parseFloat(parts[r.value]).None?
    ensures r.Some? ==> forall k :: i <= k < r.value ==> parseFloat(parts[k]).Some?
    ensures r.None? ==> forall k :: i <= k < |parts| ==> parseFloat(parts[k]).Some?
    decreases |parts| - i
  {
    if i == |parts| then None
    else if parseFloat(parts[i]).None? then Some(i)
    else FirstUnparsed(parts, parseFloat, i + 1)
  }

  /** The parts of a time string as ConvertToSeconds splits it. */
  function TimeParts(s: string): seq<string>
  {
    Split(TrimSpace(s), ':')
  }

  /** The multiplier of each part, chosen by the number of parts. */
  function Multipliers(count: nat): (m: seq<real>)
    ensures |m| == 3
  {
    if count == 2 then [60.0, 1.0, 1.0]
    else if count == 1 then [1.0, 1.0, 1.0]
    else [3600.0, 60.0, 1.0]
  }

  /** The parsed parts (0.0 where ParseFloat fails). */
  function Parsed(parts: seq<string>, parseFloat: string -> Option<real>): (values: seq<real>)
    ensures |values| == |parts|
  {
    seq(|parts|, k requires 0 <= k < |parts| =>
      if parseFloat(parts[k]).Some? then parseFloat(parts[k]).value else 0.0)
  }

  /** The sum of the first n values times their multipliers. */
  function Weighted(values: seq<real>, multipliers: seq<real>, n: nat): real
    requires n <= |values| && n <= |multipliers|
  {
    if n == 0 then 0.0 else Weighted(values, multipliers, n - 1) + values[n - 1] * multipliers[n - 1]
  }

  /** One more part adds its value times its multiplier. */
  lemma WeightedStep(values: seq<real>, multipliers: seq<real>, n: nat)
    requires n < |values| && n < |multipliers|
    ensures Weighted(values, multipliers, n + 1) == Weighted(values, multipliers, n) + values[n] * multipliers[n]
  {
  }

  /** Reference outcome of ConvertToSeconds: the index of the first part
      ParseFloat rejects, or the weighted sum of the parts.  parseFloat
      stands for strconv.ParseFloat. */
  function SecondsOf(s: string, parseFloat: string -> Option<real>): Result<real, nat>
    requires |TimeParts(s)| <= 3
  {
    var parts := TimeParts(s);
    match FirstUnparsed(parts, parseFloat, 0)
    case Some(i) => Err(i)
    case None => Ok(Weighted(Parsed(parts, parseFloat), Multipliers(|parts|), |parts|))
  }

  /** The weighted sum is the clock reading: s, 60 m + s or 3600 h + 60 m + s. */
  lemma SecondsOfIsClock(s: string, parseFloat: string -> Option<real>)
    requires |TimeParts(s)| <= 3
    ensures var r := SecondsOf(s, parseFloat);
            r.Ok? ==> r.value == ClockSeconds(Parsed(TimeParts(s), parseFloat))
  {
    var parts := TimeParts(s);
    var v := Parsed(parts, parseFloat);
    var m := Multipliers(|parts|);
    if |parts| == 1 {
      assert m[0] == 1.0;
      assert Weighted(v, m, 1) == v[0];
    } else if |parts| == 2 {
      assert m[0] == 60.0 && m[1] == 1.0;
      assert Weighted(v, m, 1) == 60.0 * v[0];
      assert Weighted(v, m, 2) == 60.0 * v[0] + v[1];
    } else if |parts| == 3 {
      assert m[0] == 3600.0 && m[1] == 60.0 && m[2] == 1.0;
      assert Weighted(v, m, 1) == 3600.0 * v[0];
      assert Weighted(v, m, 2) == 3600.0 * v[0] + 60.0 * v[1];
      assert Weighted(v, m, 3) == 3600.0 * v[0] + 60.0 * v[1] + v[2];
    }
  }

  /** ConvertToSeconds (src/utils/utils.go:63-81): trim, split on ":", pick
      the multipliers by the number of parts, and sum part times
      multiplier, stopping at the first part that does not parse.  More
      than three parts index past the multipliers in Go, hence the
      precondition. */
  method ConvertToSeconds(s: string, parseFloat: string -> Option<real>) returns (r: Result<real, nat>)
    requires |TimeParts(s)| <= 3
    ensures r == SecondsOf(s, parseFloat)
  {
    var parts := TimeParts(s);
    var multipliers := [3600.0, 60.0, 1.0];
    if |parts| == 2 {
      multipliers := [60.0, 1.0, 1.0];
    } else if |parts| == 1 {
      multipliers := [1.0, 1.0, 1.0];
    }
    assert multipliers == Multipliers(|parts|);
    ghost var values := Parsed(parts, parseFloat);
    var seconds := 0.0;
    for i := 0 to |parts|
      invariant FirstUnparsed(parts, parseFloat, i) == FirstUnparsed(parts, parseFloat, 0)
      invariant seconds == Weighted(values, multipliers, i)
    {
      var partf := parseFloat(parts[i]);
      if partf.None? {
        assert FirstUnparsed(parts, parseFloat, 0) == Some(i);
        return Err(i);
      }
      assert values[i] == partf.value;
      WeightedStep(values, multipliers, i);
      seconds := seconds + partf.value * multipliers[i];
    }
    assert FirstUnparsed(parts, parseFloat, 0).None?;
    assert seconds == Weighted(Parsed(parts, parseFloat), Multipliers(|parts|), |parts|);
    return Ok(seconds);
  }

  /** The cases utils_test.go checks (src/utils/utils_test.go:9-25), for a
      ParseFloat that reads "00", "01" and "11.5" correctly. */
  lemma MinutesExample(parseFloat: string -> Option<real>)
    requires parseFloat("00") == Some(0.0) && parseFloat("11.5") == Some(11.5)
    ensures |TimeParts("00:11.5")| == 2 && SecondsOf("00:11.5", parseFloat) == Ok(11.5)
  {
    assert "00:11.5" == "00" + [':'] + "11.5";
    TwoParts("00", "11.5", parseFloat);
  }

  lemma ZeroHoursExample(parseFloat: string -> Option<real>)
    requires parseFloat("00") == Some(0.0) && parseFloat("11.5") == Some(11.5)
    ensures |TimeParts("00:00:11.5")| == 3 && SecondsOf("00:00:11.5", parseFloat) == Ok(11.5)
  {
    assert "00:00:11.5" == "00" + [':'] + "00" + [':'] + "11.5";
    ThreeParts("00", "00", "11.5", parseFloat);
  }

  lemma HoursExample(parseFloat: string -> Option<real>)
    requires parseFloat("00") == Some(0.0) && parseFloat("01") == Some(1.0)
    requires parseFloat("11.5") == Some(11.5)
    ensures |TimeParts("00:01:11.5")| == 3 && SecondsOf("00:01:11.5", parseFloat) == Ok(71.5)
  {
    assert "00:01:11.5" == "00" + [':'] + "01" + [':'] + "11.5";
    ThreeParts("00", "01", "11.5", parseFloat);
  }

  lemma LongHoursExample(parseFloat: string -> Option<real>)
    requires parseFloat("01") == Some(1.0) && parseFloat("11.5") == Some(11.5)
    ensures |TimeParts("01:01:11.5")| == 3 && SecondsOf("01:01:11.5", parseFloat) == Ok(3671.5)
  {
    assert "01:01:11.5" == "01" + [':'] + "01" + [':'] + "11.5";
    ThreeParts("01", "01", "11.5", parseFloat);
  }

  /** An h:m:s string with parseable fields reads as 3600 h + 60 m + s. */
  lemma ThreeParts(h: string, m: string, sec: string, parseFloat: string -> Option<real>)
    requires h != [] && sec != [] && !IsSpace(h[0]) && !IsSpace(sec[|sec| - 1])
    requires ':' !in h && ':' !in m && ':' !in sec
    requires parseFloat(h).Some? && parseFloat(m).Some? && parseFloat(sec).Some?
    ensures var s := h + [':'] + m + [':'] + sec;
            && |TimeParts(s)| == 3
            && SecondsOf(s, parseFloat)
               == Ok(3600.0 * parseFloat(h).value + 60.0 * parseFloat(m).value + parseFloat(sec).value)
  {
    var s := h + [':'] + m + [':'] + sec;
    SplitThree(h, m, sec, ':');
    ClockExample(s, [h, m, sec], parseFloat);
  }

  /** An m:s string with parseable fields reads as 60 m + s. */
  lemma TwoParts(m: string, sec: string, parseFloat: string -> Option<real>)
    requires m != [] && sec != [] && !IsSpace(m[0]) && !IsSpace(sec[|sec| - 1])
    requires ':' !in m && ':' !in sec
    requires parseFloat(m).Some? && parseFloat(sec).Some?
    ensures var s := m + [':'] + sec;
            && |TimeParts(s)| == 2
            && SecondsOf(s, parseFloat) == Ok(60.0 * parseFloat(m).value + parseFloat(sec).value)
  {
    var s := m + [':'] + sec;
    SplitWithout(sec, ':');
    SplitAt(m, sec, ':');
    ClockExample(s, [m, sec], parseFloat);
  }

  lemma SplitThree(a: string, b: string, c: string, sep: char)
    requires sep !in a && sep !in b && sep !in c
    ensures Split(a + [sep] + b + [sep] + c, sep) == [a, b, c]
  {
    SplitWithout(c, sep);
    SplitAt(b, c, sep);
    SplitAt(a, b + [sep] + c, sep);
    assert a + [sep] + b + [sep] + c == a + [sep] + (b + [sep] + c);
  }

  lemma SecondsExample(parseFloat: string -> Option<real>)
    requires parseFloat("11.5") == Some(11.5)
    ensures |TimeParts("11.5")| == 1 && SecondsOf("11.5", parseFloat) == Ok(11.5)
  {
    SplitWithout("11.5", ':');
    ClockExample("11.5", ["11.5"], parseFloat);
  }

  lemma ClockExample(s: string, parts: seq<string>, parseFloat: string -> Option<real>)
    requires s != [] && !IsSpace(s[0]) && !IsSpace(s[|s| - 1])
    requires Split(s, ':') == parts && 1 <= |parts| <= 3
    requires forall k :: 0 <= k < |parts| ==> parseFloat(parts[k]).Some?
    ensures |TimeParts(s)| == |parts|
    ensures SecondsOf(s, parseFloat) == Ok(ClockSeconds(Parsed(parts, parseFloat)))
  {
    SecondsOfIsClock(s, parseFloat);
  }
}
