/** What of a message arrives: the wire format behind a receive buffer of fixed size (network/udp_transport.cpp). */
module Arrivals {
  import opened Collections
  import opened Text
  import opened Wire
  import opened Bloom
  import opened Sends
  import opened NodeModel
  import opened Systems
  import FallbackTables

  /** The datagram fits the receive buffer; of an empty value even the separator before it may be cut off. */
  predicate FitsDatagram(m: Message) {
    |ToWire(m)| <= DATAGRAM_MAX + (if m.value == "" then 1 else 0)
  }

  lemma WireTail(m: Message)
    ensures ToWire(m) == Join(WireFields(m)[..5], '|') + ['|'] + m.value
  {
    assert WireFields(m) == WireFields(m)[..5] + [m.value];
    JoinAppend(WireFields(m)[..5], m.value, '|');
  }

  lemma IntactIfFits(m: Message)
    requires Clean(m) && FitsDatagram(m)
    ensures Arrives(m) == Some(m)
  {
    hide Join, Fields, IntToString, ParseInt, NatToString;
    WireRoundTrip(m);
    if |ToWire(m)| > DATAGRAM_MAX {
      var head := WireFields(m)[..5];
      WireTail(m);
      assert Received(ToWire(m)) == Join(head, '|');
      DigitsAreClean(m.ttl);
      assert '|' !in Label(m.kind) && ParseType(Label(m.kind)) == m.kind;
      JoinThenSplit(head, '|');
      IntRoundTrip(m.ttl, 0);
    }
  }

  lemma FieldsOfClean(m: Message)
    requires Clean(m)
    ensures Fields(ToWire(m), '|') == WireFields(m)
  {
    DigitsAreClean(m.ttl);
    assert '|' !in Label(m.kind);
    JoinThenSplit(WireFields(m), '|');
  }

  lemma KeptFields(f: seq<string>, g: seq<string>)
    requires |f| == 6 && 5 <= |g| <= 6 && g[..|g| - 1] == f[..|g| - 1] && g[|g| - 1] == f[|g| - 1]
    ensures g == f[..|g|]
  {
    assert g == g[..|g| - 1] + [g[|g| - 1]];
  }

  lemma {:induction false} ReadBack(wire: string, m: Message)
    requires FromWire(wire) == Some(m)
    ensures var g := Fields(wire, '|');
            |g| >= 5 && g[4] == m.key && (|g| == 5 ==> m.value == "") && (|g| >= 6 ==> g[5] == m.value)
  {}

  lemma {:induction false} ShorterJoin(f: seq<string>, g: seq<string>)
    requires |f| == 6 && 5 <= |g| <= 6 && g == f[..|g|] && |Join(g, '|')| < |Join(f, '|')|
    ensures |g| == 5 && |Join(f, '|')| == |Join(g, '|')| + 1 + |f[5]|
  {
    assert f[..6] == f && f == f[..5] + [f[5]];
    JoinAppend(f[..5], f[5], '|');
    hide Join;
  }

  lemma FitsIfIntact(m: Message)
    requires Arrives(m) == Some(m) && |ToWire(m)| > DATAGRAM_MAX
    ensures Clean(m) && |ToWire(m)| == DATAGRAM_MAX + 1 && m.value == ""
  {
    var wire, cut := ToWire(m), ToWire(m)[..DATAGRAM_MAX];
    assert FromWire(cut) == Some(m) && |WireFields(m)| == 6 && WireFields(m)[4] == m.key && WireFields(m)[5] == m.value;
    hide *;
    ParsedIsClean(cut);
    FieldsOfClean(m);
    var f, g := Fields(wire, '|'), Fields(cut, '|');
    FieldsOfPrefix(wire, DATAGRAM_MAX, '|');
    SplitThenJoin(cut, '|');
    SplitThenJoin(wire, '|');
    ReadBack(cut, m);
    KeptFields(f, g);
    ShorterJoin(f, g);
  }

  /** A message arrives as it was sent exactly when no field holds the separator and the datagram fits the buffer. */
  lemma ArrivesExactly(m: Message)
    ensures Arrives(m) == Some(m) <==> Clean(m) && FitsDatagram(m)
  {
    if Arrives(m) == Some(m) {
      if |ToWire(m)| > DATAGRAM_MAX {
        FitsIfIntact(m);
      } else {
        ParsedIsClean(ToWire(m));
      }
    }
    if Clean(m) && FitsDatagram(m) {
      IntactIfFits(m);
    }
  }

  /** A separator in a key splits it in two on the wire. */
  lemma SplitKeyFields(m: Message, a: string, b: string)
    requires m.key == a + ['|'] + b && Clean(m.(key := a, value := b)) && '|' !in m.value
    ensures Fields(ToWire(m), '|') == [Label(m.kind), m.requestId, m.origin, IntToString(m.ttl), a, b, m.value]
  {
    var head := [Label(m.kind), m.requestId, m.origin, IntToString(m.ttl)];
    DigitsAreClean(m.ttl);
    assert '|' !in Label(m.kind);
    hide Join, Fields, IntToString, Label;
    assert WireFields(m) == head + [a + ['|'] + b] + [m.value];
    JoinAppend(head, a + ['|'] + b, '|');
    JoinAppend(head + [a + ['|'] + b], m.value, '|');
    JoinAppend(head, a, '|');
    JoinAppend(head + [a], b, '|');
    JoinAppend(head + [a] + [b], m.value, '|');
    assert Join(head, '|') + ['|'] + (a + ['|'] + b) == Join(head, '|') + ['|'] + a + ['|'] + b;
    JoinThenSplit(head + [a] + [b] + [m.value], '|');
  }

  /**
   * Why names must be clean: DATA for a key with a separator is filed under the key's head, with its tail as the value.
   */
  lemma SeparatorMisfiles(c: Config, core: Core, m: Message, a: string, b: string, from: nat, hops: nat, env: Env)
    requires WellSized(core.content.local) && !env.setOutcome.Refused?
    requires m.kind == Data && m.requestId != "" && m.origin == c.nodeId != "" && m.ttl > 0 && a != ""
    requires m.key == a + ['|'] + b && Clean(m.(key := a, value := b)) && '|' !in m.value
    requires |ToWire(m)| <= DATAGRAM_MAX
    ensures Arrives(m) == Some(m.(key := a, value := b))
    ensures var after := Handle(c, core, Arrives(m).value, from, hops, env).core.redis; a in after && after[a] == b
  {
    SplitKeyFields(m, a, b);
    IntRoundTrip(m.ttl, 0);
    assert ParseType(Label(m.kind)) == m.kind;
    hide ToWire, Fields, IntToString, ParseInt, Bloom.Add, FallbackTables.Cancel, Label;
  }

  // ---------- what any message keeps ----------

  /** However a datagram is cut, what still parses has the kind that was sent. */
  lemma KindArrives(m: Message)
    requires Arrives(m).Some?
    ensures Arrives(m).value.kind == m.kind
  {
    FieldsArrive(m, 1);
    assert WireFields(m)[..1][0] == Label(m.kind);
    assert '|' !in Label(m.kind) && ParseType(Label(m.kind)) == m.kind;
  }

  /** Its ttl is the one that was sent if the two names before it are free of the separator. */
  lemma TtlArrives(m: Message)
    requires Arrives(m).Some? && '|' !in m.requestId && '|' !in m.origin
    ensures Arrives(m).value.kind == m.kind && Arrives(m).value.ttl == m.ttl
  {
    KindArrives(m);
    DigitsAreClean(m.ttl);
    FieldsArrive(m, 4);
    assert WireFields(m)[..4][3] == IntToString(m.ttl);
    IntRoundTrip(m.ttl, 0);
  }

  lemma FieldsArrive(m: Message, i: nat)
    requires Arrives(m).Some? && i <= 4 && FreeOf(WireFields(m)[..i], '|')
    ensures |Fields(Received(ToWire(m)), '|')| >= 5 && Fields(Received(ToWire(m)), '|')[..i] == WireFields(m)[..i]
  {
    hide Fields, Join, IntToString;
    var wire := ToWire(m);
    CleanFieldsSurvive(WireFields(m), i, '|');
    FieldsOfPrefix(wire, if |wire| > DATAGRAM_MAX then DATAGRAM_MAX else |wire|, '|');
    assert |wire| <= DATAGRAM_MAX ==> wire[..|wire|] == wire;
    var f, g := Fields(wire, '|'), Fields(Received(wire), '|');
    assert g[..i] == g[..|g| - 1][..i] && f[..i] == f[..|g| - 1][..i];
  }

  /** What arrives never holds the separator in a field. */
  lemma ArrivedIsClean(m: Message)
    requires Arrives(m).Some?
    ensures Clean(Arrives(m).value)
  {
    ParsedIsClean(Received(ToWire(m)));
  }

  // ---------- how a clean message can be cut ----------

  lemma PrefixOfFirst(x: string, a: string, b: string)
    requires '|' !in x && x <= a + ['|'] + b
    ensures x <= a
  {
    var s := a + ['|'] + b;
    assert s[|a|] == '|';
    assert |x| <= |a|;
    assert forall i :: 0 <= i < |x| ==> x[i] == s[i] == a[i];
  }

  lemma PrefixAfter(head: string, x: string, rest: string)
    requires head + x <= head + rest
    ensures x <= rest
  {
    assert (head + rest)[|head|..] == rest && (head + x)[|head|..] == x;
    assert forall i :: 0 <= i < |x| ==> x[i] == (head + x)[|head| + i] == (head + rest)[|head| + i];
  }

  lemma {:induction false} JoinOfSix(f: seq<string>)
    requires |f| == 6
    ensures Join(f, '|') == Join(f[..4], '|') + ['|'] + f[4] + ['|'] + f[5]
  {
    hide Join;
    assert f == f[..5] + [f[5]] && f[..5] == f[..4] + [f[4]];
    JoinAppend(f[..5], f[5], '|');
    JoinAppend(f[..4], f[4], '|');
  }

  lemma {:induction false} JoinOfFive(g: seq<string>)
    requires |g| == 5
    ensures Join(g, '|') == Join(g[..4], '|') + ['|'] + g[4]
  {
    hide Join;
    assert g == g[..4] + [g[4]];
    JoinAppend(g[..4], g[4], '|');
  }

  lemma FirstFour(f: seq<string>, g: seq<string>)
    requires |f| == 6 && 5 <= |g| <= 6 && g[..|g| - 1] == f[..|g| - 1]
    ensures g[..4] == f[..4] && (|g| == 6 ==> g[4] == f[4])
  {
    assert forall i :: 0 <= i < |g| - 1 ==> g[i] == g[..|g| - 1][i] == f[..|g| - 1][i] == f[i];
  }

  lemma {:induction false} CutFifth(f: seq<string>, g: seq<string>)
    requires |f| == 6 && |g| == 5 && g[..4] == f[..4] && '|' !in g[4] && Join(g, '|') <= Join(f, '|')
    ensures g[4] <= f[4]
  {
    hide Join;
    JoinOfSix(f);
    JoinOfFive(g);
    var head := Join(f[..4], '|') + ['|'];
    assert head + f[4] + ['|'] + f[5] == head + (f[4] + ['|'] + f[5]);
    PrefixAfter(head, g[4], f[4] + ['|'] + f[5]);
    PrefixOfFirst(g[4], f[4], f[5]);
  }

  lemma {:induction false} CutSixth(f: seq<string>, g: seq<string>)
    requires |f| == |g| == 6 && g[..4] == f[..4] && g[4] == f[4] && Join(g, '|') <= Join(f, '|')
    ensures g[5] <= f[5]
  {
    hide Join;
    JoinOfSix(f);
    JoinOfSix(g);
    PrefixAfter(Join(f[..4], '|') + ['|'] + f[4] + ['|'], g[5], f[5]);
  }

  /** The fields of a prefix: the same four, then the fifth cut short, or the sixth. */
  lemma {:induction false} CutFields(f: seq<string>, g: seq<string>)
    requires |f| == 6 && 5 <= |g| <= 6 && FreeOf(g, '|') && g[..|g| - 1] == f[..|g| - 1] && Join(g, '|') <= Join(f, '|')
    ensures g[..4] == f[..4] && g[4] <= f[4]
    ensures |g| == 6 ==> g[4] == f[4] && g[5] <= f[5]
  {
    hide Join;
    FirstFour(f, g);
    if |g| == 6 {
      CutSixth(f, g);
    } else {
      CutFifth(f, g);
    }
  }

  /** The arrived message as its fields. */
  lemma ArrivedFields(m: Message)
    requires Arrives(m).Some?
    ensures var a, g := Arrives(m).value, Fields(Received(ToWire(m)), '|');
      && |g| >= 5 && a.key == g[4] && a.value == (if |g| >= 6 then g[5] else "")
  {}

  /** The fields of what arrives of a clean message are those sent, but for the last one that is read. */
  lemma ArrivedTail(m: Message)
    requires Clean(m) && Arrives(m).Some?
    ensures var a := Arrives(m).value; a.key <= m.key && a.value <= m.value && (a.key != m.key ==> a.value == "")
  {
    hide *;
    var wire, cut := ToWire(m), Received(ToWire(m));
    var f, g := WireFields(m), Fields(cut, '|');
    CutIsPrefix(m);
    ArrivedFields(m);
    FieldsOfClean(m);
    FieldsOfPrefix(wire, |cut|, '|');
    SplitThenJoin(cut, '|');
    SixFields(m);
    CutFields(f, g);
  }

  lemma CutIsPrefix(m: Message)
    ensures var wire, cut := ToWire(m), Received(ToWire(m));
            |cut| <= |wire| && cut == wire[..|cut|] && cut <= wire && wire == Join(WireFields(m), '|')
  {
    hide Join, WireFields;
  }

  lemma CutClean(m: Message)
    requires Clean(m) && Arrives(m).Some?
    ensures var a := Arrives(m).value;
      && a == m.(key := a.key, value := a.value)
      && a.key <= m.key && a.value <= m.value && (a.key != m.key ==> a.value == "")
  {
    hide Arrives;
    TtlArrives(m);
    NamesArrive(m);
    ArrivedTail(m);
  }

  // ---------- a separator in the value ----------

  /** Everything before the value is free of the separator. */
  predicate CleanKey(m: Message) {
    '|' !in m.requestId && '|' !in m.origin && '|' !in m.key
  }

  /** The text before its first separator. */
  function BeforeBar(s: string): (h: string)
    ensures h <= s && '|' !in h && (h != s ==> |h| < |s| && s[|h|] == '|')
  {
    if s == [] || s[0] == '|' then [] else [s[0]] + BeforeBar(s[1..])
  }

  lemma SixFieldsRead(m: Message, rest: string)
    requires Clean(m)
    ensures FromWire(ToWire(m) + ['|'] + rest) == Some(m)
  {
    DigitsAreClean(m.ttl);
    assert '|' !in Label(m.kind) && ParseType(Label(m.kind)) == m.kind;
    IntRoundTrip(m.ttl, 0);
    JoinAppend(WireFields(m), rest, '|');
    var parts := WireFields(m) + [rest];
    assert parts[..6] == WireFields(m);
    CleanFieldsSurvive(parts, 6, '|');
    var f := Fields(Join(parts, '|'), '|');
    assert forall i :: 0 <= i < 6 ==> f[i] == f[..6][i];
    hide Join, Fields, IntToString, ParseInt;
  }

  /** A separator in the value ends it on the wire and does nothing else. */
  lemma ValueEndsAtBar(m: Message)
    requires CleanKey(m)
    ensures Arrives(m) == Arrives(m.(value := BeforeBar(m.value)))
  {
    hide ToWire, FromWire, Received, BeforeBar;
    var h := BeforeBar(m.value);
    var short := m.(value := h);
    if h == m.value {
      assert short == m;
    } else {
      var rest := m.value[|h| + 1..];
      assert m.value == h + ['|'] + rest;
      WireOfLonger(m, h, rest);
      if |ToWire(short)| >= DATAGRAM_MAX {
        ReceivedAlike(ToWire(short), ['|'] + rest);
        assert ToWire(short) + ['|'] + rest == ToWire(short) + (['|'] + rest);
      } else {
        CutLater(short, rest);
      }
    }
  }

  lemma WireOfLonger(m: Message, h: string, rest: string)
    requires m.value == h + ['|'] + rest
    ensures ToWire(m) == ToWire(m.(value := h)) + ['|'] + rest
  {
    hide ToWire, Join, WireFields;
    WireTail(m);
    WireTail(m.(value := h));
    SameHead(m, h);
  }

  lemma ReceivedAlike(wire: string, rest: string)
    requires |wire| >= DATAGRAM_MAX
    ensures Received(wire + rest) == Received(wire)
  {
    assert (wire + rest)[..DATAGRAM_MAX] == wire[..DATAGRAM_MAX];
    assert |wire| == DATAGRAM_MAX ==> wire[..DATAGRAM_MAX] == wire;
    assert |rest| == 0 ==> wire + rest == wire;
  }

  lemma CutLater(m: Message, rest: string)
    requires Clean(m) && |ToWire(m)| < DATAGRAM_MAX
    ensures FromWire(Received(ToWire(m) + ['|'] + rest)) == Arrives(m) == Some(m)
  {
    hide ToWire, FromWire;
    var wire := ToWire(m);
    CleanSurvives(m);
    var kept := if |wire| + 1 + |rest| > DATAGRAM_MAX then rest[..DATAGRAM_MAX - |wire| - 1] else rest;
    assert Received(wire + ['|'] + rest) == wire + ['|'] + kept;
    SixFieldsRead(m, kept);
  }

  lemma SameHead(m: Message, value: string)
    ensures WireFields(m.(value := value))[..5] == WireFields(m)[..5]
  {}

  /**
   * A message with clean names and key arrives as it was sent but for the end: its value is cut, or its key is and the
   * value is gone.
   */
  lemma CutMessage(m: Message)
    requires CleanKey(m) && Arrives(m).Some?
    ensures var a := Arrives(m).value;
      && a == m.(key := a.key, value := a.value)
      && a.key <= m.key && a.value <= m.value && (a.key != m.key ==> a.value == "")
  {
    hide Arrives;
    ValueEndsAtBar(m);
    CutClean(m.(value := BeforeBar(m.value)));
  }

  /** The datagram is long enough for all of the key; the separator after it need not fit. */
  predicate KeyFits(m: Message) {
    |ToWire(m)| - |m.value| - 1 <= DATAGRAM_MAX
  }

  lemma FitsByKey(m: Message)
    requires FitsDatagram(m)
    ensures KeyFits(m)
  {}

  lemma HeadLength(m: Message)
    ensures |ToWire(m)| == |Join(WireFields(m)[..5], '|')| + 1 + |m.value|
  {
    WireTail(m);
  }

  lemma KeyFitsAlone(m: Message, value: string)
    ensures KeyFits(m.(value := value)) <==> KeyFits(m)
  {
    HeadLength(m);
    HeadLength(m.(value := value));
    SameHead(m, value);
    hide ToWire, Join, WireFields;
  }

  lemma LongKeyArrives(m: Message)
    requires Clean(m) && KeyFits(m)
    ensures Arrives(m).Some? && Arrives(m).value.key == m.key
  {
    ArrivesExactly(m);
    if !FitsDatagram(m) {
      WireTail(m);
      var head := Join(WireFields(m)[..5], '|');
      hide FitsDatagram, Join, WireFields, ToWire, FromWire;
      if |head| == DATAGRAM_MAX {
        var bare := m.(value := "");
        SameHead(m, "");
        WireTail(bare);
        assert Received(ToWire(m)) == head == Received(ToWire(bare));
        assert ToWire(bare) == head + ['|'];
        BareFits(bare);
        ArrivesExactly(bare);
      } else {
        var k := DATAGRAM_MAX - |head| - 1;
        LongValue(m);
        var short := m.(value := m.value[..k]);
        SameHead(m, m.value[..k]);
        WireTail(short);
        assert Received(ToWire(m)) == ToWire(short);
        CleanSurvives(short);
      }
    }
  }

  lemma BareFits(m: Message)
    requires m.value == "" && |ToWire(m)| == DATAGRAM_MAX + 1
    ensures FitsDatagram(m)
  {}

  lemma LongValue(m: Message)
    requires !FitsDatagram(m)
    ensures |ToWire(m)| > DATAGRAM_MAX
  {}

  lemma CutKeyDiffers(m: Message)
    requires Clean(m) && !KeyFits(m) && Arrives(m).Some?
    ensures Arrives(m).value.key != m.key
  {
    HeadLength(m);
    hide *;
    var wire, cut := ToWire(m), Received(ToWire(m));
    var f, g := WireFields(m), Fields(cut, '|');
    CutIsPrefix(m);
    ArrivedFields(m);
    FieldsOfClean(m);
    FieldsOfPrefix(wire, |cut|, '|');
    SplitThenJoin(cut, '|');
    SixFields(m);
    CutFields(f, g);
    CutLength(m);
    KeptHead(f, g);
  }

  lemma CutLength(m: Message)
    requires !KeyFits(m)
    ensures |Received(ToWire(m))| < |ToWire(m)| - |m.value| - 1
  {}

  /** Fields that agree up to the key make the text at least as long as all before the value. */
  lemma {:induction false} KeptHead(f: seq<string>, g: seq<string>)
    requires |f| == 6 && 5 <= |g| <= 6 && g[..4] == f[..4]
    ensures g[4] == f[4] ==> |Join(g, '|')| >= |Join(f[..5], '|')|
  {
    hide Join;
    if g[4] == f[4] {
      assert g[..5] == f[..5];
      if |g| == 5 {
        assert g == g[..5];
      } else {
        assert g == g[..5] + [g[5]];
        JoinAppend(g[..5], g[5], '|');
      }
    }
  }

  /** The key arrives as it was sent exactly when the datagram is long enough for it, whatever becomes of the value. */
  lemma KeyArrivesExactly(m: Message)
    requires CleanKey(m)
    ensures (Arrives(m).Some? && Arrives(m).value.key == m.key) <==> KeyFits(m)
  {
    hide Arrives, KeyFits;
    var short := m.(value := BeforeBar(m.value));
    ValueEndsAtBar(m);
    KeyFitsAlone(m, BeforeBar(m.value));
    if KeyFits(short) {
      LongKeyArrives(short);
    } else if Arrives(short).Some? {
      CutKeyDiffers(short);
    }
  }

  lemma SixFields(m: Message)
    ensures |WireFields(m)| == 6 && WireFields(m)[4] == m.key && WireFields(m)[5] == m.value
  {}

  lemma NamesArrive(m: Message)
    requires Arrives(m).Some? && '|' !in m.requestId && '|' !in m.origin
    ensures Arrives(m).value.requestId == m.requestId && Arrives(m).value.origin == m.origin
  {
    FieldsArrive(m, 3);
    assert WireFields(m)[..3][1] == m.requestId && WireFields(m)[..3][2] == m.origin;
    hide Fields, Join, IntToString, ParseInt;
  }

  // ---------- what a cut DATA does ----------

  /** A DATA that, if it arrives as sent, node c stores. */
  predicate ForOrigin(c: Config, m: Message) {
    CleanKey(m) && m.kind == Data && m.requestId != "" && m.origin == c.nodeId != "" && m.key != "" && m.ttl > 0
  }

  /** The receiver's Redis after the datagram, whether or not it parses. */
  function RedisAfter(c: Config, core: Core, m: Message, from: nat, hops: nat, env: Env): map<string, string>
    requires WellSized(core.content.local)
  {
    match Arrives(m)
    case None => core.redis
    case Some(a) => Handle(c, core, a, from, hops, env).core.redis
  }

  lemma StoresWhatArrives(c: Config, core: Core, a: Message, from: nat, hops: nat, env: Env)
    requires WellSized(core.content.local) && !env.setOutcome.Refused?
    requires a.kind == Data && a.requestId != "" && a.origin == c.nodeId != "" && a.ttl > 0
    ensures Handle(c, core, a, from, hops, env).core.redis == if a.key == "" then core.redis
            else core.redis[a.key := a.value]
  {
    hide Bloom.Add, FallbackTables.Cancel;
  }

  /**
   * A delivered DATA for a new key stores exactly what was sent if and only if its datagram fits the receive buffer and
   * its value is free of the separator.
   */
  lemma StoredExactly(c: Config, core: Core, m: Message, from: nat, hops: nat, env: Env)
    requires WellSized(core.content.local) && !env.setOutcome.Refused? && ForOrigin(c, m) && m.key !in core.redis
    ensures var after := RedisAfter(c, core, m, from, hops, env);
            (m.key in after && after[m.key] == m.value) <==> (FitsDatagram(m) && '|' !in m.value)
  {
    ArrivesExactly(m);
    if Arrives(m).Some? {
      CutMessage(m);
      StoresWhatArrives(c, core, Arrives(m).value, from, hops, env);
    }
    hide Arrives, Handle, FitsDatagram;
  }

  /** It leaves its key at its origin, with whatever value, if and only if the datagram is long enough for the key. */
  lemma KeyStoredExactly(c: Config, core: Core, m: Message, from: nat, hops: nat, env: Env)
    requires WellSized(core.content.local) && !env.setOutcome.Refused? && ForOrigin(c, m) && m.key !in core.redis
    ensures m.key in RedisAfter(c, core, m, from, hops, env) <==> KeyFits(m)
  {
    KeyArrivesExactly(m);
    if Arrives(m).Some? {
      CutMessage(m);
      StoresWhatArrives(c, core, Arrives(m).value, from, hops, env);
    }
    hide Arrives, Handle, KeyFits;
  }

  /** A DATA too long by its value is stored with a proper prefix of that value. */
  lemma CutValueIsStored(c: Config, core: Core, m: Message, from: nat, hops: nat, env: Env) returns (k: nat)
    requires WellSized(core.content.local) && !env.setOutcome.Refused? && ForOrigin(c, m) && Clean(m)
    requires !FitsDatagram(m) && |ToWire(m)| - |m.value| <= DATAGRAM_MAX
    ensures k < |m.value| && Arrives(m) == Some(m.(value := m.value[..k]))
    ensures RedisAfter(c, core, m, from, hops, env) == core.redis[m.key := m.value[..k]]
  {
    k := DATAGRAM_MAX - (|ToWire(m)| - |m.value|);
    var short := m.(value := m.value[..k]);
    WireTail(m);
    WireTail(short);
    SameHead(m, m.value[..k]);
    assert Received(ToWire(m)) == ToWire(short);
    CleanSurvives(short);
    StoresWhatArrives(c, core, short, from, hops, env);
    hide Handle, ToWire, FromWire, Join;
  }

  /** A DATA too long by its key is stored under a proper prefix of that key, with nothing for its value. */
  lemma CutKeyIsStored(c: Config, core: Core, m: Message, from: nat, hops: nat, env: Env) returns (k: nat)
    requires WellSized(core.content.local) && !env.setOutcome.Refused? && ForOrigin(c, m)
    requires !KeyFits(m) && |ToWire(m)| - |m.value| - 1 - |m.key| < DATAGRAM_MAX
    ensures 0 < k < |m.key| && Arrives(m) == Some(m.(key := m.key[..k], value := ""))
    ensures RedisAfter(c, core, m, from, hops, env) == core.redis[m.key[..k] := ""]
  {
    KeyTail(m);
    k := DATAGRAM_MAX - (|ToWire(m)| - |m.value| - 1 - |m.key|);
    var short := m.(key := m.key[..k], value := "");
    KeyTail(short);
    SameNames(m, short);
    BareFits(short);
    ArrivesExactly(short);
    assert Received(ToWire(m)) == Received(ToWire(short));
    StoresWhatArrives(c, core, short, from, hops, env);
    hide Handle, ToWire, FromWire, Join;
  }

  lemma KeyTail(m: Message)
    ensures ToWire(m) == Join(WireFields(m)[..4], '|') + ['|'] + m.key + ['|'] + m.value
  {
    hide Join;
    JoinOfSix(WireFields(m));
  }

  lemma SameNames(m: Message, t: Message)
    requires t == m.(key := t.key, value := t.value)
    ensures WireFields(t)[..4] == WireFields(m)[..4]
  {}

}
