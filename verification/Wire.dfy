/** The `|`-separated wire format (core/message.cpp) and the splitter under it (core/string_utils.cpp). */
module Wire {
  import opened Text

  datatype MessageType = Request | Data | ContentBloom | QueryBloom | Unknown

  datatype Message = Message(
    kind: MessageType, requestId: string, origin: string, ttl: int32, key: string, value: string)

  // ---------- splitting ----------

  /** The delimiter-separated fields of s, empty ones included; never an empty list. */
  function Fields(s: string, delim: char): (parts: seq<string>)
    ensures parts != []
    decreases |s|
  {
    if s == [] then [""]
    else
      var parts, c := Fields(s[..|s| - 1], delim), s[|s| - 1];
      if c == delim then parts + [""]
      else parts[..|parts| - 1] + [parts[|parts| - 1] + [c]]
  }

  function NonEmpty(parts: seq<string>): seq<string> {
    if parts == [] then []
    else NonEmpty(parts[..|parts| - 1]) + (if parts[|parts| - 1] == "" then [] else [parts[|parts| - 1]])
  }

  function Join(parts: seq<string>, delim: char): string
    requires parts != []
  {
    if |parts| == 1 then parts[0] else Join(parts[..|parts| - 1], delim) + [delim] + parts[|parts| - 1]
  }

  lemma {:induction false} JoinAppend(parts: seq<string>, last: string, delim: char)
    requires parts != []
    ensures Join(parts + [last], delim) == Join(parts, delim) + [delim] + last
  {
    assert (parts + [last])[..|parts|] == parts;
  }

  predicate FreeOf(parts: seq<string>, delim: char) {
    forall i :: 0 <= i < |parts| ==> delim !in parts[i]
  }

  lemma {:induction false} FieldsStep(s: string, c: char, delim: char)
    ensures var f := Fields(s, delim);
            Fields(s + [c], delim) == if c == delim then f + [""] else f[..|f| - 1] + [f[|f| - 1] + [c]]
  {
    assert (s + [c])[..|s|] == s;
  }

  lemma {:induction false} NonEmptyStep(parts: seq<string>, last: string)
    ensures NonEmpty(parts + [last]) == if last == "" then NonEmpty(parts) else NonEmpty(parts) + [last]
  {
    assert (parts + [last])[..|parts|] == parts;
  }

  function Kept(parts: seq<string>, skipEmpty: bool): seq<string> {
    if skipEmpty then NonEmpty(parts) else parts
  }

  lemma KeptStep(f: seq<string>, skipEmpty: bool)
    requires f != []
    ensures var last, before := f[|f| - 1], Kept(f[..|f| - 1], skipEmpty);
            Kept(f, skipEmpty) == if last != "" || !skipEmpty then before + [last] else before
  {
    NonEmptyStep(f[..|f| - 1], f[|f| - 1]);
    assert f == f[..|f| - 1] + [f[|f| - 1]];
  }

  method Split(input: string, delim: char, skipEmpty: bool) returns (parts: seq<string>)
    ensures parts == Kept(Fields(input, delim), skipEmpty)
  {
    parts := [];
    var current := "";
    ghost var f := Fields("", delim);
    assert f == [""] && input[..0] == "";
    hide Fields, NonEmpty, Kept;
    assert parts == Kept([], skipEmpty) && f[..0] == [] by { KeptOfNone(skipEmpty); }
    for i := 0 to |input|
      invariant f == Fields(input[..i], delim)
      invariant current == f[|f| - 1] && parts == Kept(f[..|f| - 1], skipEmpty)
    {
      var ch := input[i];
      assert input[..i + 1] == input[..i] + [ch];
      FieldsStep(input[..i], ch, delim);
      if ch == delim {
        KeptStep(f, skipEmpty);
        if current != "" || !skipEmpty {
          parts := parts + [current];
        }
        current := "";
        assert (f + [""])[..|f|] == f;
        f := f + [""];
      } else {
        current := current + [ch];
        ghost var g := f[..|f| - 1] + [f[|f| - 1] + [ch]];
        assert g[..|g| - 1] == f[..|f| - 1];
        f := g;
      }
    }
    assert input[..|input|] == input;
    KeptStep(f, skipEmpty);
    if current != "" || !skipEmpty {
      parts := parts + [current];
    }
  }

  lemma KeptOfNone(skipEmpty: bool)
    ensures Kept([], skipEmpty) == []
  {}

  /** Splitting loses nothing, and leaves no delimiter inside a field. */
  lemma {:induction false} SplitThenJoin(s: string, delim: char)
    ensures FreeOf(Fields(s, delim), delim)
    ensures Join(Fields(s, delim), delim) == s
    decreases |s|
  {
    if s != [] {
      var init, c := s[..|s| - 1], s[|s| - 1];
      var parts, f := Fields(s, delim), Fields(init, delim);
      SplitThenJoin(init, delim);
      assert s == init + [c];
      if c == delim {
        assert parts[..|parts| - 1] == f;
      } else if |f| > 1 {
        assert parts[..|parts| - 1] == f[..|f| - 1];
        assert Join(parts, delim) == Join(f[..|f| - 1], delim) + [delim] + (f[|f| - 1] + [c]);
      }
    }
  }

  /** Joining delimiter-free fields is undone by splitting. */
  lemma {:induction false} JoinThenSplit(parts: seq<string>, delim: char)
    requires parts != [] && FreeOf(parts, delim)
    ensures Fields(Join(parts, delim), delim) == parts
    decreases |parts|
  {
    var last := parts[|parts| - 1];
    if |parts| == 1 {
      FieldsOfAppend("", last, delim);
      assert "" + last == last && parts == [last];
    } else {
      var init := parts[..|parts| - 1];
      var s := Join(init, delim);
      JoinThenSplit(init, delim);
      FieldsStep(s, delim, delim);
      FieldsOfAppend(s + [delim], last, delim);
      hide Fields;
      var f := init + [""];
      assert f[..|f| - 1] == init && f[|f| - 1] + last == last;
      assert parts == init + [last];
    }
  }

  /** Appending delimiter-free text extends the last field only. */
  lemma {:induction false} FieldsOfAppend(s: string, tail: string, delim: char)
    requires delim !in tail
    ensures var f := Fields(s, delim); Fields(s + tail, delim) == f[..|f| - 1] + [f[|f| - 1] + tail]
    decreases |tail|
  {
    var f := Fields(s, delim);
    if tail == [] {
      assert s + tail == s && f[|f| - 1] + tail == f[|f| - 1];
    } else {
      var init, c := tail[..|tail| - 1], tail[|tail| - 1];
      assert init + [c] == tail;
      FieldsOfAppend(s, init, delim);
      FieldsStep(s + init, c, delim);
      hide Fields;
      assert s + tail == s + init + [c];
      assert f[|f| - 1] + tail == f[|f| - 1] + init + [c];
    }
  }

  lemma ConcatLast(f: seq<string>, g: seq<string>, y: string)
    requires g != []
    ensures (f + g)[..|f + g| - 1] + [y] == f + (g[..|g| - 1] + [y]) && (f + g)[|f + g| - 1] == g[|g| - 1]
  {}

  lemma {:induction false} FieldsConcatStep(s: string, x: string, c: char, delim: char)
    requires Fields(s + [delim] + x, delim) == Fields(s, delim) + Fields(x, delim)
    ensures Fields(s + [delim] + (x + [c]), delim) == Fields(s, delim) + Fields(x + [c], delim)
  {
    hide Fields;
    var f, g := Fields(s, delim), Fields(x, delim);
    assert s + [delim] + (x + [c]) == (s + [delim] + x) + [c];
    FieldsStep(s + [delim] + x, c, delim);
    FieldsStep(x, c, delim);
    if c == delim {
      assert (f + g) + [""] == f + (g + [""]);
    } else {
      ConcatLast(f, g, g[|g| - 1] + [c]);
    }
  }

  /** Text before a separator and text after it split independently. */
  lemma {:induction false} FieldsConcat(s: string, x: string, delim: char)
    ensures Fields(s + [delim] + x, delim) == Fields(s, delim) + Fields(x, delim)
    decreases |x|
  {
    if x == [] {
      FieldsStep(s, delim, delim);
      assert s + [delim] + x == s + [delim];
    } else {
      hide Fields;
      var init, c := x[..|x| - 1], x[|x| - 1];
      FieldsConcat(s, init, delim);
      FieldsConcatStep(s, init, c, delim);
      assert x == init + [c];
    }
  }

  /** The first i of the joined fields are read back if they are free of the separator, whatever follows. */
  lemma {:induction false} CleanFieldsSurvive(parts: seq<string>, i: nat, delim: char)
    requires i < |parts| && FreeOf(parts[..i], delim)
    ensures |Fields(Join(parts, delim), delim)| > i && Fields(Join(parts, delim), delim)[..i] == parts[..i]
    decreases |parts|
  {
    if |parts| > 1 {
      var init, last := parts[..|parts| - 1], parts[|parts| - 1];
      FieldsConcat(Join(init, delim), last, delim);
      if i == |init| {
        JoinThenSplit(init, delim);
        assert parts[..i] == init;
      } else {
        assert init[..i] == parts[..i];
        CleanFieldsSurvive(init, i, delim);
      }
    }
  }

  lemma KeptPrefix(f: seq<string>, g: seq<string>, last: string)
    requires f != [] && g != [] && |g| <= |f| && g[..|g| - 1] == f[..|g| - 1]
    ensures g[..|g| - 1] == (f + [last])[..|g| - 1] && g[..|g| - 1] == (f[..|f| - 1] + [last])[..|g| - 1]
  {}

  /** Cutting a string short leaves every field but the last one read as it was. */
  lemma {:induction false} FieldsOfPrefix(s: string, k: nat, delim: char)
    requires k <= |s|
    ensures var f, g := Fields(s, delim), Fields(s[..k], delim); |g| <= |f| && g[..|g| - 1] == f[..|g| - 1]
    decreases |s|
  {
    hide Fields;
    if k == |s| {
      assert s[..k] == s;
    } else {
      var init, c := s[..|s| - 1], s[|s| - 1];
      assert init[..k] == s[..k] && s == init + [c];
      FieldsOfPrefix(init, k, delim);
      FieldsStep(init, c, delim);
      var f, g := Fields(init, delim), Fields(s[..k], delim);
      KeptPrefix(f, g, if c == delim then "" else f[|f| - 1] + [c]);
    }
  }

  // ---------- messages ----------

  function Label(kind: MessageType): string {
    match kind
    case Request => "REQ"
    case Data => "DATA"
    case ContentBloom => "CBF"
    case QueryBloom => "QBF"
    case Unknown => "UNKNOWN"
  }

  function ParseType(token: string): MessageType {
    if token == "REQ" then Request
    else if token == "DATA" then Data
    else if token == "CBF" then ContentBloom
    else if token == "QBF" then QueryBloom
    else Unknown
  }

  function WireFields(m: Message): seq<string> {
    [Label(m.kind), m.requestId, m.origin, IntToString(m.ttl), m.key, m.value]
  }

  function ToWire(m: Message): string {
    Join(WireFields(m), '|')
  }

  function FromWire(wire: string): Option<Message> {
    var parts := Fields(wire, '|');
    if |parts| < 5 then None
    else Some(Message(ParseType(parts[0]), parts[1], parts[2], ParseInt(parts[3], 0), parts[4],
                      if |parts| >= 6 then parts[5] else ""))
  }

  /** No text field holds the separator. */
  predicate Clean(m: Message) {
    '|' !in m.requestId && '|' !in m.origin && '|' !in m.key && '|' !in m.value
  }

  method Serialize(m: Message) returns (out: string)
    ensures out == ToWire(m)
  {
    ghost var fields := WireFields(m);
    out := Label(m.kind);
    assert out == Join([Label(m.kind)], '|');
    out := out + "|" + m.requestId;
    JoinAppend([Label(m.kind)], m.requestId, '|');
    assert fields[..2] == [Label(m.kind)] + [m.requestId];
    out := out + "|" + m.origin;
    JoinAppend(fields[..2], m.origin, '|');
    assert fields[..3] == fields[..2] + [m.origin];
    out := out + "|" + IntToString(m.ttl);
    JoinAppend(fields[..3], IntToString(m.ttl), '|');
    assert fields[..4] == fields[..3] + [IntToString(m.ttl)];
    out := out + "|" + m.key;
    JoinAppend(fields[..4], m.key, '|');
    assert fields[..5] == fields[..4] + [m.key];
    out := out + "|" + m.value;
    JoinAppend(fields[..5], m.value, '|');
    assert fields == fields[..5] + [m.value];
  }

  method Parse(wire: string) returns (r: Option<Message>)
    ensures r == FromWire(wire)
  {
    var parts := Split(wire, '|', false);
    if |parts| < 5 {
      return None;
    }
    var msg := Message(Unknown, "", "", 0, "", "");
    msg := msg.(kind := ParseType(parts[0]));
    msg := msg.(requestId := parts[1]);
    msg := msg.(origin := parts[2]);
    msg := msg.(ttl := ParseInt(parts[3], 0));
    msg := msg.(key := parts[4]);
    if |parts| >= 6 {
      msg := msg.(value := parts[5]);
    }
    return Some(msg);
  }

  lemma DigitsAreClean(i: int)
    ensures '|' !in IntToString(i)
  {
    var s := NatToString(if i < 0 then -i else i);
    assert forall k :: 0 <= k < |s| ==> IsDigit(s[k]);
  }

  lemma ParsedIsClean(wire: string)
    requires FromWire(wire).Some?
    ensures Clean(FromWire(wire).value)
  {
    SplitThenJoin(wire, '|');
  }

  lemma CleanSurvives(m: Message)
    requires Clean(m)
    ensures FromWire(ToWire(m)) == Some(m)
  {
    var parts := WireFields(m);
    DigitsAreClean(m.ttl);
    assert '|' !in Label(m.kind) && ParseType(Label(m.kind)) == m.kind;
    JoinThenSplit(parts, '|');
    IntRoundTrip(m.ttl, 0);
  }

  lemma WireLength(m: Message)
    ensures |ToWire(m)| == |Label(m.kind)| + |m.requestId| + |m.origin| + |IntToString(m.ttl)| + |m.key| + |m.value| + 5
  {
    hide IntToString, Label;
    var f := WireFields(m);
    assert f[..5] + [f[5]] == f && f[..4] + [f[4]] == f[..5] && f[..3] + [f[3]] == f[..4];
    assert f[..2] + [f[2]] == f[..3] && f[..1] + [f[1]] == f[..2] && Join(f[..1], '|') == f[0];
    hide Join;
    JoinAppend(f[..5], f[5], '|');
    JoinAppend(f[..4], f[4], '|');
    JoinAppend(f[..3], f[3], '|');
    JoinAppend(f[..2], f[2], '|');
    JoinAppend(f[..1], f[1], '|');
  }

  /** A message survives its wire form exactly when none of its text fields holds the separator. */
  lemma WireRoundTrip(m: Message)
    ensures FromWire(ToWire(m)) == Some(m) <==> Clean(m)
  {
    if Clean(m) {
      CleanSurvives(m);
    } else if FromWire(ToWire(m)).Some? {
      ParsedIsClean(ToWire(m));
    }
  }

  /** Whatever was parsed is in normal form: printing and parsing it again changes nothing. */
  lemma ParsedIsStable(wire: string)
    requires FromWire(wire).Some?
    ensures FromWire(ToWire(FromWire(wire).value)) == FromWire(wire)
  {
    ParsedIsClean(wire);
    WireRoundTrip(FromWire(wire).value);
  }

  /** The witness that the condition is needed: a separator in a key moves the rest into the value. */
  lemma SeparatorInKey()
    ensures FromWire(ToWire(Message(Data, "r", "n", 1, "a|b", "v"))) == Some(Message(Data, "r", "n", 1, "a", "b"))
  {
    var m := Message(Data, "r", "n", 1, "a|b", "v");
    var head := ["DATA", "r", "n", "1"];
    var plain := head + ["a"] + ["b"] + ["v"];
    assert IntToString(1) == "1" && WireFields(m) == head + ["a|b"] + ["v"];
    JoinAppend(head, "a|b", '|');
    JoinAppend(head + ["a|b"], "v", '|');
    JoinAppend(head, "a", '|');
    JoinAppend(head + ["a"], "b", '|');
    JoinAppend(head + ["a"] + ["b"], "v", '|');
    assert "a" + ['|'] + "b" == "a|b";
    assert ToWire(m) == Join(plain, '|');
    JoinThenSplit(plain, '|');
    IntRoundTrip(1, 0);
  }

  /** What a message looks like on the wire, by its kind. */
  lemma WireText(m: Message)
    ensures ToWire(m) ==
            (match m.kind
             case Request => "REQ"
             case Data => "DATA"
             case ContentBloom => "CBF"
             case QueryBloom => "QBF"
             case Unknown => "UNKNOWN")
            + "|" + m.requestId + "|" + m.origin + "|" + IntToString(m.ttl) + "|" + m.key + "|" + m.value
  {
    hide IntToString, Join;
    var f := WireFields(m);
    JoinAppend(f[..5], f[5], '|');
    JoinAppend(f[..4], f[4], '|');
    JoinAppend(f[..3], f[3], '|');
    JoinAppend(f[..2], f[2], '|');
    JoinAppend(f[..1], f[1], '|');
    assert f[..5] + [f[5]] == f && f[..4] + [f[4]] == f[..5] && f[..3] + [f[3]] == f[..4];
    assert f[..2] + [f[2]] == f[..3] && f[..1] + [f[1]] == f[..2];
    assert Join(f[..1], '|') == f[0] by { JoinOne(f[0]); assert f[..1] == [f[0]]; }
  }

  lemma JoinOne(s: string)
    ensures Join([s], '|') == s
  {}
}
