/**
 The limit on sending codes. It counts in a key that a client's purpose can overwrite, so the
 bound holds exactly for phones whose counter no accepted send writes to.
 */
module OtpLimits {
  import opened Wrappers
  import opened RedisStore
  import opened Sets
  import opened Otp
  import RateLimit

  /** The sends that were let through for one phone, as admissions of its counter. */
  function Sends(s: State, es: seq<Request>, phone: string): seq<RateLimit.Admission> {
    if es == [] then []
    else
      var before := es[..|es| - 1];
      var last := es[|es| - 1];
      var log := Sends(s, before, phone);
      if last.Send? && last.phone == phone then
        RateLimit.LogHit(Run(s, before).store, CounterKey(phone), SEND_LIMIT, SEND_WINDOW, log)
      else log
  }

  /** An accepted send whose code lands on the phone's counter. */
  predicate Overwrites(s: State, e: Request, phone: string) {
    e.Send? && Apply(s, e).1 == Done && Key(e.purpose, e.phone) == CounterKey(phone)
  }

  ghost predicate CounterUntouched(s: State, es: seq<Request>, phone: string) {
    forall i :: 0 <= i < |es| ==> !Overwrites(Run(s, es[..i]), es[i], phone)
  }

  /** Which purposes land on it: "rl" sent to the phone itself, or "rl:x" sent to the phone's part after "x:". */
  lemma OverwritesIff(s: State, e: Request, phone: string)
    requires e.Send? && Apply(s, e).1 == Done
    ensures Overwrites(s, e, phone) <==>
            || (e.purpose == "rl" && e.phone == phone)
            || ("rl:" <= e.purpose && phone == e.purpose[3..] + ":" + e.phone)
  {
    KeysMeetIff(e.purpose, e.phone, "rl", phone);
    assert "rl" + ":" == "rl:";
  }

  // ---- the bound ----

  /** No row's key is the phone's counter, so no check deletes it. */
  predicate RowsApart(s: State, phone: string) {
    forall i :: 0 <= i < |s.rows| ==> Key(s.rows[i].purpose, s.rows[i].phone) != CounterKey(phone)
  }

  /** Nothing but time happened to one key. */
  predicate SameAt(s: Store, s': Store, key: string) {
    && s'.up == s.up && s.now <= s'.now
    && (key in s'.data <==> key in s.data)
    && (key in s.data ==> s'.data[key] == s.data[key])
  }

  lemma CheckKeepsRowsApart(s: State, flow: Flow, phone: string, code: string, counted: string)
    requires RowsApart(s, counted)
    ensures RowsApart(Check(s, flow, phone, code).0, counted) && Check(s, flow, phone, code).0.store == s.store
  {
    CacheKeyIsNoCounter(flow, phone, counted);
    hide Key, CounterKey, CacheHit, Latest;
  }

  lemma FinishLeavesCounter(s: State, i: nat, flow: Flow, user: Option<Error>, gate: Option<Error>, counted: string)
    requires RowsApart(s, counted) && i < |s.rows|
    ensures var t := Finish(s, i, flow, user, gate).0;
            RowsApart(t, counted) && SameAt(s.store, t.store, CounterKey(counted))
  {
    CacheKeyIsNoCounter(Login, s.rows[i].phone, counted);
    CacheKeyIsNoCounter(Reset, s.rows[i].phone, counted);
    CacheKeyIsNoCounter(Confirm, s.rows[i].phone, counted);
    hide Key, CounterKey;
  }

  lemma ConsumeLeavesCounter(s: State, e: Request, counted: string)
    requires RowsApart(s, counted) && e.Consume?
    ensures RowsApart(Apply(s, e).0, counted) && SameAt(s.store, Apply(s, e).0.store, CounterKey(counted))
  {
    var (checked, found) := Check(s, e.flow, e.phone, e.code);
    CheckKeepsRowsApart(s, e.flow, e.phone, e.code, counted);
    if found.Some? {
      FinishLeavesCounter(checked, found.value, e.flow, e.user, e.gate, counted);
    }
    hide RowsApart, Check, Finish;
  }

  lemma AddCodeLeavesCounter(s: State, phone: string, purpose: string, code: string, counted: string)
    requires RowsApart(s, counted) && Key(purpose, phone) != CounterKey(counted)
    ensures var t := AddCode(s, phone, purpose, code);
            RowsApart(t, counted) && SameAt(s.store, t.store, CounterKey(counted))
  {
    hide Key, CounterKey;
  }

  lemma HitLeavesOtherCounters(s: Store, phone: string, counted: string)
    requires phone != counted
    ensures SameAt(s, Incr(s, CounterKey(phone), SEND_WINDOW).0, CounterKey(counted))
  {
    KeysMeetIff("rl", phone, "rl", counted);
    assert !("rl" + ":" <= "rl");
  }

  lemma CounterStep(s: State, e: Request, phone: string, log: seq<RateLimit.Admission>)
    requires RowsApart(s, phone) && !Overwrites(s, e, phone)
    requires RateLimit.Windowed(s.store, CounterKey(phone), SEND_LIMIT, SEND_WINDOW, log)
    ensures var log' := if e.Send? && e.phone == phone
                        then RateLimit.LogHit(s.store, CounterKey(phone), SEND_LIMIT, SEND_WINDOW, log) else log;
            RateLimit.Windowed(Apply(s, e).0.store, CounterKey(phone), SEND_LIMIT, SEND_WINDOW, log')
    ensures RowsApart(Apply(s, e).0, phone)
  {
    assert s.store.up;
    if e.Send? {
      SendCounterStep(s, e, phone, log);
    } else {
      if e.SendConfirmation? {
        CacheKeyIsNoCounter(Confirm, e.phone, phone);
        AddCodeLeavesCounter(s, e.phone, "admin_confirm", e.code, phone);
      } else if e.Consume? {
        ConsumeLeavesCounter(s, e, phone);
      }
      hide RateLimit.Windowed, Key, CounterKey;
      assert SameAt(s.store, Apply(s, e).0.store, CounterKey(phone));
      RateLimit.OtherStepsKeepWindowed(s.store, Apply(s, e).0.store, CounterKey(phone), SEND_LIMIT, SEND_WINDOW, log);
    }
  }

  lemma SendCounterStep(s: State, e: Request, phone: string, log: seq<RateLimit.Admission>)
    requires RowsApart(s, phone) && !Overwrites(s, e, phone) && e.Send?
    requires RateLimit.Windowed(s.store, CounterKey(phone), SEND_LIMIT, SEND_WINDOW, log)
    ensures var log' := if e.phone == phone
                        then RateLimit.LogHit(s.store, CounterKey(phone), SEND_LIMIT, SEND_WINDOW, log) else log;
            RateLimit.Windowed(Apply(s, e).0.store, CounterKey(phone), SEND_LIMIT, SEND_WINDOW, log')
    ensures RowsApart(Apply(s, e).0, phone)
  {
    var key := CounterKey(phone);
    var counted := s.(store := Incr(s.store, CounterKey(e.phone), SEND_WINDOW).0);
    var t := Apply(s, e).0;
    assert RowsApart(counted, phone);
    if Apply(s, e).1 == Done {
      AddCodeLeavesCounter(counted, e.phone, e.purpose, e.code, phone);
    }
    assert SameAt(counted.store, t.store, key);
    if e.phone == phone {
      RateLimit.HitKeepsWindowed(s.store, key, SEND_LIMIT, SEND_WINDOW, log);
      var log' := RateLimit.LogHit(s.store, key, SEND_LIMIT, SEND_WINDOW, log);
      assert RateLimit.Windowed(counted.store, key, SEND_LIMIT, SEND_WINDOW, log');
      assert counted.store.up;
      hide *;
      WindowedStays(counted.store, t.store, key, log');
    } else {
      assert s.store.up;
      HitLeavesOtherCounters(s.store, e.phone, phone);
      assert SameAt(s.store, t.store, key);
      hide *;
      WindowedStays(s.store, t.store, key, log);
    }
  }

  lemma WindowedStays(s: Store, t: Store, key: string, log: seq<RateLimit.Admission>)
    requires SameAt(s, t, key) && RateLimit.Windowed(s, key, SEND_LIMIT, SEND_WINDOW, log)
    ensures RateLimit.Windowed(t, key, SEND_LIMIT, SEND_WINDOW, log)
  {
    assert s.up;
    RateLimit.OtherStepsKeepWindowed(s, t, key, SEND_LIMIT, SEND_WINDOW, log);
  }

  lemma UntouchedPrefix(s: State, es: seq<Request>, phone: string)
    requires es != [] && CounterUntouched(s, es, phone)
    ensures CounterUntouched(s, es[..|es| - 1], phone) && !Overwrites(Run(s, es[..|es| - 1]), es[|es| - 1], phone)
  {
    var k := |es| - 1;
    forall i | 0 <= i < k
      ensures !Overwrites(Run(s, es[..k][..i]), es[..k][i], phone)
    {
      assert es[..k][..i] == es[..i] && !Overwrites(Run(s, es[..i]), es[i], phone);
    }
  }

  lemma {:induction false} SendsAreWindowed(s: State, es: seq<Request>, phone: string)
    requires Initial(s) && s.store.up && CounterUntouched(s, es, phone)
    ensures RateLimit.Windowed(Run(s, es).store, CounterKey(phone), SEND_LIMIT, SEND_WINDOW, Sends(s, es, phone))
    ensures RowsApart(Run(s, es), phone)
  {
    hide Apply, Overwrites, Key;
    if es != [] {
      UntouchedPrefix(s, es, phone);
      var before := es[..|es| - 1];
      SendsAreWindowed(s, before, phone);
      CounterStep(Run(s, before), es[|es| - 1], phone, Sends(s, before, phone));
    }
  }

  /** The log is the accepted sends: an accepted one adds one entry at its own time, a refused one none. */
  lemma SendIsLoggedIffAccepted(s: State, es: seq<Request>, e: Request)
    requires Initial(s) && s.store.up && e.Send? && CounterUntouched(s, es, e.phone)
    ensures var log, log' := Sends(s, es, e.phone), Sends(s, es + [e], e.phone);
            if Apply(Run(s, es), e).1 == Done
            then |log'| == |log| + 1 && log'[|log|].at == Run(s, es).store.now
            else log' == log
  {
    assert (es + [e])[..|es|] == es;
    SendsAreWindowed(s, es, e.phone);
    RateLimit.HitKeepsWindowed(Run(s, es).store, CounterKey(e.phone), SEND_LIMIT, SEND_WINDOW, Sends(s, es, e.phone));
    hide Run, AddCode, RateLimit.Windowed;
  }

  /**
   With Redis up, over every run, whatever codes are sent and however they repeat: a phone whose
   counter no accepted send writes to gets at most 5 codes per window and 9 in any ten minutes.
   */
  lemma SendBound(s: State, es: seq<Request>, phone: string, t: real)
    requires Initial(s) && s.store.up && CounterUntouched(s, es, phone)
    ensures |RateLimit.SameWindow(Sends(s, es, phone), t)| <= 5
    ensures |RateLimit.Within(Sends(s, es, phone), t, t + 600.0)| <= 9
  {
    SendsAreWindowed(s, es, phone);
    RateLimit.FixedWindowBound(SEND_LIMIT, SEND_WINDOW, Sends(s, es, phone), t);
    RateLimit.SlidingBound(SEND_LIMIT, SEND_WINDOW, Sends(s, es, phone), t);
  }

  // ---- the converse ----

  /** A login with the code just sent selects its row and deletes the key its purpose named. */
  lemma LoginDeletesPurposeKey(s: State, phone: string, purpose: string, code: string)
    requires s.store.up && s.rows != []
    requires Matches(s.rows[|s.rows| - 1], phone, code, Some(purpose)) && s.store.now <= s.rows[|s.rows| - 1].expires
    ensures var (t, outcome) := Apply(s, Consume(CheckedLogin, phone, code, None, None));
            && outcome == Done && t.store.up && t.store.now == s.store.now && t.minutes == s.minutes
            && Key(purpose, phone) !in t.store.data
  {
    hide Key;
    assert Latest(s.rows, phone, code, None) == Some(|s.rows| - 1);
  }

  /** Two requests that send one code to the phone and leave no trace of it in the counter. */
  function Untraced(phone: string, code: string): seq<Request> {
    [Send(phone, "rl", code), Consume(CheckedLogin, phone, code, None, None)]
  }

  predicate CounterGone(s: State, phone: string) {
    s.store.up && s.minutes > 0 && CounterKey(phone) !in s.store.data
  }

  lemma RunSnoc(s: State, es: seq<Request>, e: Request, phone: string)
    ensures Run(s, es + [e]) == Apply(Run(s, es), e).0
    ensures Sends(s, es + [e], phone) ==
            if e.Send? && e.phone == phone
            then RateLimit.LogHit(Run(s, es).store, CounterKey(phone), SEND_LIMIT, SEND_WINDOW, Sends(s, es, phone))
            else Sends(s, es, phone)
  {
    assert (es + [e])[..|es|] == es;
  }

  lemma SendFromGone(s: State, phone: string, purpose: string, code: string, log: seq<RateLimit.Admission>)
    requires CounterGone(s, phone)
    ensures var (t, outcome) := Apply(s, Send(phone, purpose, code));
            && outcome == Done && t.store.up && t.store.now == s.store.now && t.minutes == s.minutes && t.rows != []
            && Matches(t.rows[|t.rows| - 1], phone, code, Some(purpose)) && t.store.now <= t.rows[|t.rows| - 1].expires
            && RateLimit.LogHit(s.store, CounterKey(phone), SEND_LIMIT, SEND_WINDOW, log)
               == log + [RateLimit.Admission(s.store.now, s.store.now)]
  {
    RateLimit.IncrIsNextCounter(s.store, CounterKey(phone), SEND_WINDOW);
    hide Key, CounterKey;
  }

  lemma UntracedStep(s: State, es: seq<Request>, phone: string, code: string)
    requires CounterGone(Run(s, es), phone)
    ensures var t := Run(s, es);
            var t' := Run(s, es + Untraced(phone, code));
            && CounterGone(t', phone) && t'.store.now == t.store.now
            && Sends(s, es + Untraced(phone, code), phone)
               == Sends(s, es, phone) + [RateLimit.Admission(t.store.now, t.store.now)]
  {
    var send, use := Send(phone, "rl", code), Consume(CheckedLogin, phone, code, None, None);
    var t := Run(s, es);
    assert es + Untraced(phone, code) == es + [send] + [use];
    RunSnoc(s, es, send, phone);
    RunSnoc(s, es + [send], use, phone);
    SendFromGone(t, phone, "rl", code, Sends(s, es, phone));
    hide Run, Sends, Apply, RateLimit.LogHit;
    LoginDeletesPurposeKey(Apply(t, send).0, phone, "rl", code);
  }

  function UntracedMany(phone: string, code: string, n: nat): seq<Request> {
    if n == 0 then [] else UntracedMany(phone, code, n - 1) + Untraced(phone, code)
  }

  /** From a state without the counter, any number of codes can be sent at one moment. */
  lemma {:induction false} UnboundedSends(s: State, es: seq<Request>, phone: string, code: string, n: nat)
    requires CounterGone(Run(s, es), phone)
    ensures var now := Run(s, es).store.now;
            var more := UntracedMany(phone, code, n);
            && CounterGone(Run(s, es + more), phone) && Run(s, es + more).store.now == now
            && Sends(s, es + more, phone) == Sends(s, es, phone) + RateLimit.Repeat(RateLimit.Admission(now, now), n)
  {
    hide Run, Sends, Untraced;
    var now := Run(s, es).store.now;
    if n == 0 {
      assert es + [] == es;
      assert Sends(s, es, phone) + [] == Sends(s, es, phone);
    } else {
      var before := es + UntracedMany(phone, code, n - 1);
      UnboundedSends(s, es, phone, code, n - 1);
      UntracedStep(s, before, phone, code);
      assert es + UntracedMany(phone, code, n) == before + Untraced(phone, code);
    }
  }

  /**
   Conversely, from any state: once a send that writes to a phone's counter is accepted, a login
   with its code deletes the counter, and then any number of codes reaches the phone at one moment,
   all of them in one window of the log.
   */
  lemma OverwrittenCounterBoundsNothing(s: State, es: seq<Request>, e: Request, phone: string, n: nat)
      returns (more: seq<Request>, now: real)
    requires Run(s, es).store.up && Run(s, es).minutes > 0 && e.Send? && Overwrites(Run(s, es), e, phone)
    ensures now == Run(s, es).store.now && Run(s, es + [e] + more).store.now == now
    ensures |RateLimit.SameWindow(Sends(s, es + [e] + more, phone), now)| >= n
    ensures |RateLimit.Within(Sends(s, es + [e] + more, phone), now, now + 600.0)| >= n
  {
    hide *;
    var use := Consume(CheckedLogin, e.phone, e.code, None, None);
    now := Run(s, es).store.now;
    RunSnoc(s, es, e, phone);
    RunSnoc(s, es + [e], use, phone);
    LoginDeletesCounter(Run(s, es), e, phone);
    var start := es + [e] + [use];
    UnboundedSends(s, start, phone, e.code, n);
    more := [use] + UntracedMany(phone, e.code, n);
    assert es + [e] + more == start + UntracedMany(phone, e.code, n);
    BurstCounts(Sends(s, start, phone), now, n);
  }

  lemma LoginDeletesCounter(s: State, e: Request, phone: string)
    requires s.store.up && s.minutes > 0 && e.Send? && Overwrites(s, e, phone)
    ensures var t := Apply(Apply(s, e).0, Consume(CheckedLogin, e.phone, e.code, None, None)).0;
            CounterGone(t, phone) && t.store.now == s.store.now
  {
    SentLast(s, e);
    hide Apply;
    LoginDeletesPurposeKey(Apply(s, e).0, e.phone, e.purpose, e.code);
  }

  lemma SentLast(s: State, e: Request)
    requires e.Send? && Apply(s, e).1 == Done && s.minutes > 0
    ensures var t := Apply(s, e).0;
            && t.store.up == s.store.up && t.store.now == s.store.now && t.minutes == s.minutes && t.rows != []
            && Matches(t.rows[|t.rows| - 1], e.phone, e.code, Some(e.purpose))
            && t.store.now <= t.rows[|t.rows| - 1].expires
  {
    hide Key, CounterKey;
  }

  lemma BurstCounts(log: seq<RateLimit.Admission>, now: real, n: nat)
    ensures var all := log + RateLimit.Repeat(RateLimit.Admission(now, now), n);
            |RateLimit.SameWindow(all, now)| >= n && |RateLimit.Within(all, now, now + 600.0)| >= n
  {
    var all := log + RateLimit.Repeat(RateLimit.Admission(now, now), n);
    var burst := RateLimit.Range(|log|, n);
    assert forall i :: i in burst ==> all[i] == RateLimit.Admission(now, now);
    SubsetSize(burst, RateLimit.SameWindow(all, now));
    SubsetSize(burst, RateLimit.Within(all, now, now + 600.0));
  }
}
