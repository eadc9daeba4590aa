/**
 Shop opening hours: reading the stored texts, the daily and weekly windows, and the step that
 closes a shop outside them. Times are IST; a moment is a weekday (Monday = 0) and the
 microseconds since midnight.
 */
module ShopHours {
  import opened Text
  import opened Wrappers
  import Decimal

  const DAY: nat := 1440
  const MICROS: nat := 60_000_000

  // ---- cutting texts ----

  /** str.partition: the text before the first c, and what follows it if there is one. */
  function BreakAt(s: string, c: char): (r: (string, Option<string>))
    ensures r.1.Some? ==> s == r.0 + [c] + r.1.value && |r.1.value| < |s|
    ensures r.1.None? ==> r.0 == s
  {
    if s == [] then ([], None)
    else if s[0] == c then ([], Some(s[1..]))
    else
      var (head, rest) := BreakAt(s[1..], c);
      ([s[0]] + head, rest)
  }

  function Replace(s: string, a: char, b: char): (r: string)
    ensures |r| == |s| && forall i :: 0 <= i < |s| ==> r[i] == if s[i] == a then b else s[i]
  {
    seq(|s|, i requires 0 <= i < |s| => if s[i] == a then b else s[i])
  }

  function Split(s: string, c: char): seq<string>
    decreases |s|
  {
    var (head, rest) := BreakAt(s, c);
    if rest.None? then [head] else [head] + Split(rest.value, c)
  }

  lemma {:induction false} BreakAtFirst(a: string, c: char, b: string)
    requires c !in a
    ensures BreakAt(a + [c] + b, c) == (a, Some(b))
  {
    var t := a + [c] + b;
    if a != [] {
      BreakAtFirst(a[1..], c, b);
      assert t[1..] == a[1..] + [c] + b && t[0] == a[0] && a[0] in a;
      assert [a[0]] + a[1..] == a;
    } else {
      assert t[1..] == b;
    }
  }

  lemma {:induction false} BreakAtNone(a: string, c: char)
    requires c !in a
    ensures BreakAt(a, c) == (a, None)
  {
    if a != [] {
      BreakAtNone(a[1..], c);
    }
  }

  // ---- parse_hhmm ----

  /** Digits with single underscores between them, as int() reads them. */
  function GroupedDigits(s: string): Option<nat> {
    if s == [] || !('0' <= s[|s| - 1] <= '9') then None
    else
      var n, d := |s| - 1, s[|s| - 1] as int - '0' as int;
      if n == 0 then Some(d)
      else
        var head := GroupedDigits(if s[n - 1] == '_' then s[..n - 1] else s[..n]);
        if head.None? then None else Some(10 * head.value + d)
  }

  /** int(s); None is a ValueError. */
  function ParseInt(s: string): Option<int> {
    var t := Strip(s, IsSpace);
    if t != [] && (t[0] == '-' || t[0] == '+') then
      var v := GroupedDigits(t[1..]);
      if v.None? then None else Some(if t[0] == '-' then -(v.value as int) else v.value)
    else
      GroupedDigits(t)
  }

  /** Minutes since midnight. */
  function ParseHhmm(raw: Option<string>, byDefault: nat): (r: nat)
    requires byDefault < DAY
    ensures r < DAY
  {
    var s := if raw.Some? then Strip(raw.value, IsSpace) else "";
    if s == "" then byDefault
    else
      var (hours, rest) := BreakAt(Replace(s, '.', ':'), ':');
      var h := ParseInt(hours);
      var m := if rest.None? then Some(0) else ParseInt(BreakAt(rest.value, ':').0);
      if h.Some? && m.Some? && 0 <= h.value <= 23 && 0 <= m.value <= 59 then 60 * h.value + m.value else byDefault
  }

  function TwoDigits(n: nat): (s: string)
    requires n < 100
  {
    [Decimal.Digit(n / 10), Decimal.Digit(n % 10)]
  }

  lemma ParseTwoDigits(n: nat)
    requires n < 100
    ensures ParseInt(TwoDigits(n)) == Some(n) && '.' !in TwoDigits(n) && ':' !in TwoDigits(n)
  {
    var s := TwoDigits(n);
    assert Strip(s, IsSpace) == s;
    assert GroupedDigits(s[..1]) == Some(n / 10);
  }

  /** Written as HH:MM or HH.MM, every time of day is read back, whatever the default. */
  lemma TimeReadsBack(t: nat, separator: char, byDefault: nat)
    requires t < DAY && byDefault < DAY && (separator == ':' || separator == '.')
    ensures ParseHhmm(Some(TwoDigits(t / 60) + [separator] + TwoDigits(t % 60)), byDefault) == t
  {
    var h, m := TwoDigits(t / 60), TwoDigits(t % 60);
    var s := h + [separator] + m;
    ParseTwoDigits(t / 60);
    ParseTwoDigits(t % 60);
    assert Strip(s, IsSpace) == s;
    assert Replace(s, '.', ':') == h + ":" + m;
    hide *;
    BreakAtFirst(h, ':', m);
    BreakAtNone(m, ':');
    ReadsTime(s, h, m, t, byDefault);
  }

  lemma ReadsTime(s: string, h: string, m: string, t: nat, byDefault: nat)
    requires t < DAY && byDefault < DAY && s != [] && Strip(s, IsSpace) == s
    requires BreakAt(Replace(s, '.', ':'), ':') == (h, Some(m)) && BreakAt(m, ':') == (m, None)
    requires ParseInt(h) == Some(t / 60) && ParseInt(m) == Some(t % 60)
    ensures ParseHhmm(Some(s), byDefault) == t
  {
    hide ParseInt, BreakAt, Replace, Strip;
  }

  // ---- _day_allowed ----

  function Alias(s: string): (r: Option<nat>)
    ensures r.Some? ==> r.value < 7
  {
    if s == "mon" || s == "monday" then Some(0)
    else if s == "tue" || s == "tues" || s == "tuesday" then Some(1)
    else if s == "wed" || s == "wednesday" then Some(2)
    else if s == "thu" || s == "thur" || s == "thurs" || s == "thursday" then Some(3)
    else if s == "fri" || s == "friday" then Some(4)
    else if s == "sat" || s == "saturday" then Some(5)
    else if s == "sun" || s == "sunday" then Some(6)
    else None
  }

  predicate EveryDay(key: string) {
    key == "mon-sun" || key == "daily" || key == "all" || key == "everyday" || key == "alldays"
  }

  function Squeeze(s: string): string {
    if s == [] then []
    else if s[0] == ' ' then Squeeze(s[1..])
    else [LowerChar(s[0])] + Squeeze(s[1..])
  }

  /** Days from start on to end, around the end of the week if start is later. */
  predicate InDayRange(start: nat, end: nat, weekday: nat) {
    if start <= end then start <= weekday <= end else weekday >= start || weekday <= end
  }

  function KnownDays(tokens: seq<string>): set<nat> {
    set t | t in tokens && Alias(t).Some? :: Alias(t).value
  }

  predicate ListAllows(key: string, weekday: nat) {
    var days := KnownDays(Split(Replace(key, '/', ','), ','));
    days == {} || weekday in days
  }

  predicate KeyAllows(key: string, weekday: nat) {
    EveryDay(key) ||
    if '-' in key && ',' !in key then
      var (a, rest) := BreakAt(key, '-');
      var start, end := Alias(a), if rest.Some? then Alias(rest.value) else None;
      if start.Some? && end.Some? then InDayRange(start.value, end.value, weekday) else ListAllows(key, weekday)
    else ListAllows(key, weekday)
  }

  predicate DayAllowed(days: Option<string>, weekday: nat) {
    var raw := if days.Some? then Strip(days.value, IsSpace) else "";
    raw == "" || KeyAllows(Squeeze(raw), weekday)
  }

  /** The days of a range are those at most as far after its start as its end is, going round. */
  lemma DayRangeIsCyclic(start: nat, end: nat, weekday: nat)
    requires start < 7 && end < 7 && weekday < 7
    ensures InDayRange(start, end, weekday) <==> (weekday - start) % 7 <= (end - start) % 7
  {
  }

  function InRange(start: nat, end: nat): nat -> bool {
    (d: nat) => InDayRange(start, end, d)
  }

  /** A range a-b allows ((b - a) mod 7) + 1 weekdays. */
  lemma DayRangeSize(start: nat, end: nat)
    requires start < 7 && end < 7
    ensures Count(InRange(start, end), 7) == (end - start) % 7 + 1
  {
    hide Count;
    var p := InRange(start, end);
    if start <= end {
      CountBetween(p, start, end + 1, 7);
    } else {
      var gap := (d: nat) => end < d < start;
      CountComplement(p, gap, 7);
      CountBetween(gap, end + 1, start, 7);
    }
  }

  // ---- day texts in any letter case and spacing ----

  ghost predicate PlainSpaces(s: string) {
    forall i :: 0 <= i < |s| && IsSpace(s[i]) ==> s[i] == ' '
  }

  lemma {:induction false} SqueezeConcat(a: string, b: string)
    ensures Squeeze(a + b) == Squeeze(a) + Squeeze(b)
  {
    hide LowerChar;
    if a == [] {
      assert a + b == b && Squeeze(a) == [];
    } else {
      var x, t := LowerChar(a[0]), a + b;
      SqueezeConcat(a[1..], b);
      assert t[1..] == a[1..] + b && t[0] == a[0];
      assert [x] + (Squeeze(a[1..]) + Squeeze(b)) == ([x] + Squeeze(a[1..])) + Squeeze(b);
    }
  }

  lemma {:induction false} SqueezeStripLeft(s: string)
    requires PlainSpaces(s)
    ensures Squeeze(StripLeft(s, IsSpace)) == Squeeze(s) && PlainSpaces(StripLeft(s, IsSpace))
  {
    if s != [] && IsSpace(s[0]) {
      SqueezeStripLeft(s[1..]);
    }
  }

  lemma {:induction false} SqueezeStripRight(s: string)
    requires PlainSpaces(s)
    ensures Squeeze(StripRight(s, IsSpace)) == Squeeze(s)
  {
    if s != [] && IsSpace(s[|s| - 1]) {
      var front := s[..|s| - 1];
      SqueezeStripRight(front);
      assert s == front + " ";
      SqueezeConcat(front, " ");
      assert " "[1..] == "";
    }
  }

  lemma SqueezeStrip(s: string)
    requires PlainSpaces(s)
    ensures Squeeze(Strip(s, IsSpace)) == Squeeze(s)
  {
    SqueezeStripLeft(s);
    SqueezeStripRight(StripLeft(s, IsSpace));
  }

  /** Names of days are lower-case letters, so no separator. */
  lemma AliasLetters(s: string)
    requires Alias(s).Some?
    ensures s != "" && forall i :: 0 <= i < |s| ==> 'a' <= s[i] <= 'z'
  {
  }

  lemma EveryDayTexts(key: string)
    requires EveryDay(key)
    ensures '-' in key ==> key == "mon-sun"
    ensures '-' !in key ==> Alias(key).None? && ',' !in key
  {
  }

  lemma RangeKey(a: string, b: string)
    requires Alias(a).Some? && Alias(b).Some?
    ensures var key := a + "-" + b;
            '-' in key && ',' !in key && BreakAt(key, '-') == (a, Some(b))
  {
    AliasLetters(a);
    AliasLetters(b);
    hide Alias;
    assert (a + "-" + b)[|a|] == '-';
    BreakAtFirst(a, '-', b);
  }

  lemma EveryDayRange(a: string, b: string)
    requires Alias(a).Some? && Alias(b).Some? && EveryDay(a + "-" + b)
    ensures a == "mon" && b == "sun"
  {
    RangeKey(a, b);
    EveryDayTexts(a + "-" + b);
    hide *;
    BreakAtFirst("mon", '-', "sun");
    assert "mon" + "-" + "sun" == "mon-sun";
  }

  lemma SqueezeRange(a: string, b: string)
    requires PlainSpaces(a) && PlainSpaces(b)
    ensures Squeeze(Strip(a + "-" + b, IsSpace)) == Squeeze(a) + "-" + Squeeze(b)
  {
    SqueezeStrip(a + "-" + b);
    assert Squeeze("-") == "-" by {
      assert "-"[1..] == "";
    }
    hide *;
    SqueezeConcat(a, "-" + b);
    SqueezeConcat("-", b);
    assert a + "-" + b == a + ("-" + b);
  }

  lemma RangeAllows(a: string, b: string, weekday: nat)
    requires Alias(a).Some? && Alias(b).Some? && weekday < 7
    ensures KeyAllows(a + "-" + b, weekday) <==> InDayRange(Alias(a).value, Alias(b).value, weekday)
  {
    RangeKey(a, b);
    if EveryDay(a + "-" + b) {
      EveryDayRange(a, b);
      assert Alias("mon") == Some(0) && Alias("sun") == Some(6);
    }
    hide Alias, EveryDay, BreakAt, ListAllows;
  }

  /** "Mon-Fri" and the like, however written, allow exactly the range from the first day to the second. */
  lemma RangeText(a: string, b: string, weekday: nat)
    requires PlainSpaces(a) && PlainSpaces(b) && weekday < 7
    requires Alias(Squeeze(a)).Some? && Alias(Squeeze(b)).Some?
    ensures DayAllowed(Some(a + "-" + b), weekday)
       <==> InDayRange(Alias(Squeeze(a)).value, Alias(Squeeze(b)).value, weekday)
  {
    var raw := Strip(a + "-" + b, IsSpace);
    assert raw == "" ==> Squeeze(raw) == "";
    SqueezeRange(a, b);
    hide *;
    DayAllowedByKey(a + "-" + b, weekday);
    RangeAllows(Squeeze(a), Squeeze(b), weekday);
  }

  function Joined(tokens: seq<string>): string {
    if tokens == [] then ""
    else if |tokens| == 1 then tokens[0]
    else tokens[0] + "," + Joined(tokens[1..])
  }

  lemma {:induction false} SplitJoined(tokens: seq<string>)
    requires tokens != [] && forall i :: 0 <= i < |tokens| ==> ',' !in tokens[i]
    ensures Split(Joined(tokens), ',') == tokens
  {
    if |tokens| == 1 {
      BreakAtNone(tokens[0], ',');
    } else {
      SplitJoined(tokens[1..]);
      BreakAtFirst(tokens[0], ',', Joined(tokens[1..]));
    }
  }

  /** What a joined list holds besides its commas. */
  lemma {:induction false} JoinedLetters(tokens: seq<string>)
    requires tokens != [] && forall i :: 0 <= i < |tokens| ==> Alias(tokens[i]).Some?
    ensures var key := Joined(tokens);
            key != "" && (|tokens| > 1 ==> ',' in key)
            && forall i :: 0 <= i < |key| ==> 'a' <= key[i] <= 'z' || key[i] == ','
  {
    AliasLetters(tokens[0]);
    hide Alias;
    if |tokens| > 1 {
      JoinedLetters(tokens[1..]);
      assert Joined(tokens)[|tokens[0]|] == ',';
    }
  }

  lemma LettersAndCommas(key: string)
    requires forall i :: 0 <= i < |key| ==> 'a' <= key[i] <= 'z' || key[i] == ',' || key[i] == '/'
    ensures '-' !in key
  {
  }

  /** A key whose slashes stand for commas in a joined list holds letters, commas and slashes. */
  lemma ListLetters(key: string, tokens: seq<string>)
    requires tokens != [] && forall i :: 0 <= i < |tokens| ==> Alias(tokens[i]).Some?
    requires Replace(key, '/', ',') == Joined(tokens)
    ensures key != "" && '-' !in key
    ensures key == Joined(tokens) || '/' in key
  {
    JoinedLetters(tokens);
    var joined := Joined(tokens);
    assert |key| == |joined|;
    forall i | 0 <= i < |key|
      ensures 'a' <= key[i] <= 'z' || key[i] == ',' || key[i] == '/'
    {
      assert joined[i] == if key[i] == '/' then ',' else key[i];
    }
    hide Alias, Joined;
    LettersAndCommas(key);
    if '/' !in key {
      assert forall i :: 0 <= i < |key| ==> key[i] in key && joined[i] == key[i];
    }
  }

  lemma EveryDayHasNoSlash(key: string)
    requires EveryDay(key)
    ensures '/' !in key
  {
  }

  lemma ListIsNotEveryDay(key: string, tokens: seq<string>)
    requires tokens != [] && forall i :: 0 <= i < |tokens| ==> Alias(tokens[i]).Some?
    requires Replace(key, '/', ',') == Joined(tokens)
    ensures !EveryDay(key)
  {
    ListLetters(key, tokens);
    JoinedLetters(tokens);
    if EveryDay(key) {
      EveryDayTexts(key);
      EveryDayHasNoSlash(key);
      hide Alias, EveryDay;
    }
  }

  lemma SplitTokens(tokens: seq<string>)
    requires tokens != [] && forall i :: 0 <= i < |tokens| ==> Alias(tokens[i]).Some?
    ensures Split(Joined(tokens), ',') == tokens
  {
    hide Alias, Joined, Split;
    forall i | 0 <= i < |tokens|
      ensures ',' !in tokens[i]
    {
      AliasLetters(tokens[i]);
    }
    SplitJoined(tokens);
  }

  lemma TokensAllow(tokens: seq<string>, weekday: nat)
    requires tokens != [] && forall i :: 0 <= i < |tokens| ==> Alias(tokens[i]).Some?
    ensures KnownDays(tokens) == {} || weekday in KnownDays(tokens) <==>
            exists i :: 0 <= i < |tokens| && Alias(tokens[i]) == Some(weekday)
  {
    hide Alias;
    assert Alias(tokens[0]).value in KnownDays(tokens);
  }

  lemma ListKeyAllows(key: string, tokens: seq<string>, weekday: nat)
    requires tokens != [] && forall i :: 0 <= i < |tokens| ==> Alias(tokens[i]).Some?
    requires Replace(key, '/', ',') == Joined(tokens)
    ensures KeyAllows(key, weekday) <==> exists i :: 0 <= i < |tokens| && Alias(tokens[i]) == Some(weekday)
  {
    hide Alias, EveryDay, BreakAt, Split, Replace, Joined, KnownDays;
    ListLetters(key, tokens);
    SplitTokens(tokens);
    ListIsNotEveryDay(key, tokens);
    TokensAllow(tokens, weekday);
  }

  /**
   A list of day names parted by commas or slashes, however the whole text is cased and spaced,
   allows exactly the days it names.
   */
  lemma ListText(text: string, tokens: seq<string>, weekday: nat)
    requires PlainSpaces(text) && tokens != [] && Replace(Squeeze(text), '/', ',') == Joined(tokens)
    requires forall i :: 0 <= i < |tokens| ==> Alias(tokens[i]).Some?
    ensures DayAllowed(Some(text), weekday) <==> exists i :: 0 <= i < |tokens| && Alias(tokens[i]) == Some(weekday)
  {
    hide *;
    SqueezeStrip(text);
    ListLetters(Squeeze(text), tokens);
    NothingSqueezed();
    ListKeyAllows(Squeeze(text), tokens, weekday);
    DayAllowedByKey(text, weekday);
  }

  lemma NothingSqueezed()
    ensures Squeeze("") == ""
  {
  }

  lemma DayAllowedByKey(text: string, weekday: nat)
    requires Strip(text, IsSpace) != ""
    ensures DayAllowed(Some(text), weekday) <==> KeyAllows(Squeeze(Strip(text, IsSpace)), weekday)
  {
    hide KeyAllows, Squeeze, Strip;
  }

  // ---- the words themselves ----

  /** The day table, Monday first. */
  lemma DayTable()
    ensures Alias("mon") == Alias("monday") == Some(0)
    ensures Alias("tue") == Alias("tues") == Alias("tuesday") == Some(1)
    ensures Alias("wed") == Alias("wednesday") == Some(2)
    ensures Alias("thu") == Alias("thur") == Alias("thurs") == Alias("thursday") == Some(3)
    ensures Alias("fri") == Alias("friday") == Some(4)
    ensures Alias("sat") == Alias("saturday") == Some(5)
    ensures Alias("sun") == Alias("sunday") == Some(6)
  {
    EarlyDays();
    MiddleDays();
    LateDays();
    hide Alias;
  }

  lemma EarlyDays()
    ensures Alias("mon") == Alias("monday") == Some(0)
    ensures Alias("tue") == Alias("tues") == Alias("tuesday") == Some(1)
    ensures Alias("wed") == Alias("wednesday") == Some(2)
  {
  }

  lemma MiddleDays()
    ensures Alias("thu") == Alias("thur") == Alias("thurs") == Alias("thursday") == Some(3)
  {
  }

  lemma LateDays()
    ensures Alias("fri") == Alias("friday") == Some(4)
    ensures Alias("sat") == Alias("saturday") == Some(5)
    ensures Alias("sun") == Alias("sunday") == Some(6)
  {
  }

  /** No text, an empty one, or one of the words for all days allows every day. */
  lemma EveryDayAllowed(weekday: nat)
    ensures DayAllowed(None, weekday) && DayAllowed(Some(""), weekday)
    ensures KeyAllows("daily", weekday) && KeyAllows("all", weekday) && KeyAllows("everyday", weekday)
    ensures KeyAllows("alldays", weekday) && KeyAllows("mon-sun", weekday)
  {
    hide ListAllows, BreakAt, Alias;
  }

  /** A list that names no day allows every day. */
  lemma UnknownDaysAllowAll(key: string, weekday: nat)
    requires '-' !in key && forall t :: t in Split(Replace(key, '/', ','), ',') ==> Alias(t).None?
    ensures KeyAllows(key, weekday)
  {
    hide Split, Replace, Alias, EveryDay;
  }

  /** Without stored times a shop is open from nine in the morning to nine in the evening. */
  lemma DefaultTimes(p: Profile)
    ensures p.openTime.None? ==> OpeningMinute(p) == 540
    ensures p.closeTime.None? ==> ClosingMinute(p) == 1260
  {
  }

  /** A time that is no time of day counts as not stored; an hour alone is the full hour. */
  lemma OddTimes(h: nat, m: nat, byDefault: nat)
    requires h < 100 && m < 100 && byDefault < DAY
    ensures h > 23 || m > 59 ==> ParseHhmm(Some(TwoDigits(h) + ":" + TwoDigits(m)), byDefault) == byDefault
    ensures h <= 23 ==> ParseHhmm(Some(TwoDigits(h)), byDefault) == 60 * h
    ensures ParseHhmm(None, byDefault) == ParseHhmm(Some(""), byDefault) == byDefault
  {
    ParseTwoDigits(h);
    ParseTwoDigits(m);
    var s := TwoDigits(h) + ":" + TwoDigits(m);
    assert Strip(s, IsSpace) == s && Strip(TwoDigits(h), IsSpace) == TwoDigits(h) && Strip("", IsSpace) == "";
    assert Replace(s, '.', ':') == s && Replace(TwoDigits(h), '.', ':') == TwoDigits(h);
    hide ParseInt, Strip, Replace, TwoDigits, BreakAt;
    BreakAtFirst(TwoDigits(h), ':', TwoDigits(m));
    BreakAtNone(TwoDigits(m), ':');
    BreakAtNone(TwoDigits(h), ':');
  }

  // ---- is_within_shop_hours ----

  /** [opening, closing) in any one unit of time; the same time twice means all day. */
  predicate InWindow(opening: nat, closing: nat, now: nat) {
    opening == closing ||
    if opening < closing then opening <= now < closing else now >= opening || now < closing
  }

  datatype Profile = Profile(openTime: Option<string>, closeTime: Option<string>, days: Option<string>)

  datatype Moment = Moment(weekday: nat, micros: nat)

  function OpeningMinute(p: Profile): (m: nat)
    ensures m < DAY
  {
    ParseHhmm(p.openTime, 9 * 60)
  }

  function ClosingMinute(p: Profile): (m: nat)
    ensures m < DAY
  {
    ParseHhmm(p.closeTime, 21 * 60)
  }

  predicate Within(p: Profile, now: Moment) {
    DayAllowed(p.days, now.weekday) && InWindow(OpeningMinute(p) * MICROS, ClosingMinute(p) * MICROS, now.micros)
  }

  /** Only the minute matters: a shop opens and closes exactly at its minutes. */
  lemma WithinByMinute(p: Profile, now: Moment)
    ensures Within(p, now) <==>
            DayAllowed(p.days, now.weekday) && InWindow(OpeningMinute(p), ClosingMinute(p), now.micros / MICROS)
  {
  }

  lemma WindowIsCyclic(opening: nat, closing: nat, now: nat)
    requires opening < DAY && closing < DAY && now < DAY
    ensures InWindow(opening, closing, now) <==>
            opening == closing || (now - opening) % DAY < (closing - opening) % DAY
  {
  }

  /** Swapping two different times gives exactly the complement. */
  lemma SwappedIsComplement(opening: nat, closing: nat, now: nat)
    requires opening != closing
    ensures InWindow(closing, opening, now) <==> !InWindow(opening, closing, now)
  {
  }

  // ---- counting open minutes ----

  function Count(p: nat -> bool, n: nat): (k: nat)
    ensures k <= n
  {
    if n == 0 then 0 else Count(p, n - 1) + if p(n - 1) then 1 else 0
  }

  lemma {:induction false} CountBetween(p: nat -> bool, lo: nat, hi: nat, n: nat)
    requires lo <= hi && forall x :: 0 <= x < n ==> (p(x) <==> lo <= x < hi)
    ensures Count(p, n) == if n <= lo then 0 else if n <= hi then n - lo else hi - lo
  {
    if n > 0 {
      CountBetween(p, lo, hi, n - 1);
    }
  }

  lemma {:induction false} CountComplement(p: nat -> bool, q: nat -> bool, n: nat)
    requires forall x :: 0 <= x < n ==> (p(x) <==> !q(x))
    ensures Count(p, n) + Count(q, n) == n
  {
    if n > 0 {
      CountComplement(p, q, n - 1);
    }
  }

  function OpenAt(opening: nat, closing: nat): nat -> bool {
    (m: nat) => InWindow(opening, closing, m)
  }

  /** Minutes a shop is open on an allowed day. */
  function OpenMinutes(opening: nat, closing: nat): (k: nat)
    ensures k <= DAY
  {
    Count(OpenAt(opening, closing), DAY)
  }

  lemma OpenMinutesAre(opening: nat, closing: nat)
    requires opening < DAY && closing < DAY
    ensures OpenMinutes(opening, closing) == if opening == closing then DAY else (closing - opening) % DAY
  {
    hide Count;
    var p := OpenAt(opening, closing);
    if opening == closing {
      CountBetween(p, 0, DAY, DAY);
    } else if opening < closing {
      CountBetween(p, opening, closing, DAY);
    } else {
      CountComplement(p, OpenAt(closing, opening), DAY);
      CountBetween(OpenAt(closing, opening), closing, opening, DAY);
    }
  }

  function Allowed(days: Option<string>): nat -> bool {
    (d: nat) => DayAllowed(days, d)
  }

  /** Minute x of the week. */
  function OpenInWeek(p: Profile): nat -> bool {
    (x: nat) => Within(p, Moment(x / DAY, x % DAY * MICROS))
  }

  /** The first minute of day d, counted from Monday's. */
  function Midnight(d: nat): nat {
    1440 * d
  }

  lemma OpenInWeekAt(p: Profile, d: nat, m: nat)
    requires m < DAY
    ensures OpenInWeek(p)(Midnight(d) + m) <==>
            DayAllowed(p.days, d) && OpenAt(OpeningMinute(p), ClosingMinute(p))(m)
  {
    hide Within, DayAllowed, InWindow, ParseHhmm;
    var x := Midnight(d) + m;
    assert x / DAY == d && x % DAY == m;
    WithinByMinute(p, Moment(d, m * MICROS));
    assert m * MICROS / MICROS == m;
  }

  lemma {:induction false} CountOneDay(p: Profile, d: nat, n: nat)
    requires n <= DAY
    ensures Count(OpenInWeek(p), Midnight(d) + n)
         == Count(OpenInWeek(p), Midnight(d))
          + if DayAllowed(p.days, d) then Count(OpenAt(OpeningMinute(p), ClosingMinute(p)), n) else 0
  {
    hide OpenInWeek, OpenAt, DayAllowed, OpeningMinute, ClosingMinute, Midnight;
    if n > 0 {
      CountOneDay(p, d, n - 1);
      OpenInWeekAt(p, d, n - 1);
    }
  }

  lemma NextDay(p: Profile, d: nat)
    ensures Count(OpenInWeek(p), Midnight(d + 1))
         == Count(OpenInWeek(p), Midnight(d))
          + if DayAllowed(p.days, d) then OpenMinutes(OpeningMinute(p), ClosingMinute(p)) else 0
  {
    assert OpenMinutes(OpeningMinute(p), ClosingMinute(p)) == Count(OpenAt(OpeningMinute(p), ClosingMinute(p)), DAY);
    assert Midnight(d + 1) == Midnight(d) + DAY;
    hide *;
    CountOneDay(p, d, DAY);
  }

  lemma Distribute(a: nat, m: nat, yes: bool)
    ensures (a + if yes then 1 else 0) * m == a * m + if yes then m else 0
  {
  }

  /** Over d days from Monday a shop is open its daily minutes on each allowed day. */
  lemma {:induction false} WeeklyMinutes(p: Profile, d: nat)
    ensures Count(OpenInWeek(p), Midnight(d))
            == Count(Allowed(p.days), d) * OpenMinutes(OpeningMinute(p), ClosingMinute(p))
  {
    hide DayAllowed, OpeningMinute, ClosingMinute, OpenMinutes;
    if d > 0 {
      var allowed, week := Allowed(p.days), OpenInWeek(p);
      assert Count(allowed, d) == Count(allowed, d - 1) + if DayAllowed(p.days, d - 1) then 1 else 0;
      hide *;
      WeeklyMinutes(p, d - 1);
      NextDay(p, d - 1);
      Distribute(Count(allowed, d - 1), OpenMinutes(OpeningMinute(p), ClosingMinute(p)), DayAllowed(p.days, d - 1));
    }
  }

  /**
   An overnight window belongs to the calendar day, not to the evening it began: with the next
   day not allowed, the shop that is open until midnight closes there, and it was open in the
   early hours of the allowed day instead.
   */
  lemma OvernightStopsAtMidnight(p: Profile, d: nat, next: nat, t: nat)
    requires d < 7 && next == (d + 1) % 7 && ClosingMinute(p) < OpeningMinute(p)
    requires DayAllowed(p.days, d) && !DayAllowed(p.days, next)
    ensures Within(p, Moment(d, DAY * MICROS - 1)) && !Within(p, Moment(next, t))
    ensures Within(p, Moment(d, t)) <== t < ClosingMinute(p) * MICROS
  {
    hide ParseHhmm, DayAllowed;
  }

  lemma NightDigits()
    ensures TwoDigits(22) == "22" && TwoDigits(6) == "06" && TwoDigits(0) == "00"
  {
  }

  lemma NightTimes()
    ensures ParseHhmm(Some("22:00"), 540) == 1320 && ParseHhmm(Some("06:00"), 1260) == 360
  {
    hide TwoDigits, ParseHhmm;
    NightDigits();
    TimeReadsBack(1320, ':', 540);
    TimeReadsBack(360, ':', 1260);
    assert "22" + [':'] + "00" == "22:00" && "06" + [':'] + "00" == "06:00";
  }

  lemma FridayLetters()
    ensures Squeeze("Fri") == "fri" && PlainSpaces("Fri")
  {
    assert "Fri"[1..] == "ri" && "ri"[1..] == "i" && "i"[1..] == "";
    assert Squeeze("") == "";
    assert Squeeze("i") == "i";
    assert Squeeze("ri") == "ri";
  }

  lemma FridayAlias()
    ensures Joined(["fri"]) == "fri" && Alias("fri") == Some(4)
  {
  }

  lemma NoSlashInFri()
    ensures Replace("fri", '/', ',') == "fri"
  {
  }

  lemma FridayOnly(d: nat)
    ensures DayAllowed(Some("Fri"), d) <==> d == 4
  {
    hide *;
    FridayLetters();
    FridayAlias();
    NoSlashInFri();
    ListText("Fri", ["fri"], d);
    assert ["fri"][0] == "fri";
  }

  /** For instance, a shop open on "Fri" from "22:00" to "06:00": Friday's own early hours, and closed at midnight. */
  lemma FridayNight(t: nat)
    ensures var p := Profile(Some("22:00"), Some("06:00"), Some("Fri"));
            && Within(p, Moment(4, DAY * MICROS - 1)) && !Within(p, Moment(5, t))
            && (t < 360 * MICROS ==> Within(p, Moment(4, t)))
  {
    hide Within, DayAllowed, OpeningMinute, ClosingMinute;
    var p := Profile(Some("22:00"), Some("06:00"), Some("Fri"));
    NightMinutes(p);
    FridayOnly(4);
    FridayOnly(5);
    OvernightStopsAtMidnight(p, 4, 5, t);
  }

  lemma NightMinutes(p: Profile)
    requires p == Profile(Some("22:00"), Some("06:00"), Some("Fri"))
    ensures OpeningMinute(p) == 1320 && ClosingMinute(p) == 360
  {
    NightTimes();
    hide ParseHhmm;
  }

  // ---- closing ----

  /** is_open after the check. */
  function Checked(p: Profile, isOpen: bool, now: Moment): bool {
    isOpen && Within(p, now)
  }

  function CheckedAll(p: Profile, isOpen: bool, times: seq<Moment>): bool {
    if times == [] then isOpen else Checked(p, CheckedAll(p, isOpen, times[..|times| - 1]), times[|times| - 1])
  }

  /** Checks never open a shop; it stays open just when every one of them fell within hours. */
  lemma {:induction false} OpenAfterChecksIff(p: Profile, isOpen: bool, times: seq<Moment>)
    ensures CheckedAll(p, isOpen, times) <==> isOpen && forall i :: 0 <= i < |times| ==> Within(p, times[i])
  {
    hide Within;
    if times != [] {
      OpenAfterChecksIff(p, isOpen, times[..|times| - 1]);
    }
  }

  class ShopProfile {
    const profile: Profile
    var isOpen: bool

    constructor (p: Profile, open: bool)
      ensures profile == p && isOpen == open
    {
      profile, isOpen := p, open;
    }

    method EnforceAutoClose(now: Moment) returns (changed: bool)
      modifies this`isOpen
      ensures isOpen == Checked(profile, old(isOpen), now)
      ensures changed <==> isOpen != old(isOpen)
    {
      if !isOpen {
        return false;
      }
      if Within(profile, now) {
        return false;
      }
      isOpen := false;
      changed := true;
    }

    /** A second check at the same time changes nothing. */
    method EnforceTwice(now: Moment) returns (first: bool, second: bool)
      modifies this`isOpen
      ensures isOpen == Checked(profile, old(isOpen), now)
      ensures !second
    {
      first := EnforceAutoClose(now);
      second := EnforceAutoClose(now);
    }
  }
}
