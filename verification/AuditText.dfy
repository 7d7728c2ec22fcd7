/** The text an audit event is hashed from: seven fields joined by an unescaped vertical bar
    (crates/shaka-core/src/lib.rs). */
module AuditText {
  /** Text without the separator: identifiers and instants as the source prints them. */
  type Word = s: string | '|' !in s

  // ----- maps of strings as the source prints them for debugging -----

  /** Metadata entries in key order. */
  type Metadata = seq<(string, string)>

  function Code(c: char): string {
    if c == '"' then "\\\""
    else if c == '\\' then "\\\\"
    else if c == '\n' then "\\n"
    else if c == '\r' then "\\r"
    else if c == '\t' then "\\t"
    else if c == '\0' then "\\0"
    else [c]
  }

  function Escape(s: string): string {
    if s == "" then "" else Code(s[0]) + Escape(s[1..])
  }

  function Quoted(s: string): string {
    "\"" + Escape(s) + "\""
  }

  function Entry(e: (string, string)): string {
    Quoted(e.0) + ": " + Quoted(e.1)
  }

  function Entries(m: Metadata): string {
    if m == [] then "}" else ", " + Entry(m[0]) + Entries(m[1..])
  }

  function MetadataText(m: Metadata): string {
    if m == [] then "{}" else "{" + Entry(m[0]) + Entries(m[1..])
  }

  // ----- the text -----

  /** Everything before the previous hash. */
  function Head(eventId: Word, occurredAt: Word, actor: string, action: string, outcome: string, m: Metadata): string {
    eventId + "|" + occurredAt + "|" + actor + "|" + action + "|" + outcome + "|" + MetadataText(m)
  }

  // ----- splitting at separators -----

  function UpTo(s: string): string {
    if s == "" || s[0] == '|' then "" else [s[0]] + UpTo(s[1..])
  }

  lemma {:induction false} UpToFirst(a: string, x: string)
    requires '|' !in a
    ensures UpTo(a + "|" + x) == a
  {
    if a != "" {
      assert (a + "|" + x)[1..] == a[1..] + "|" + x;
      UpToFirst(a[1..], x);
    }
  }

  /** The first separator splits uniquely. */
  lemma SplitFirst(a: string, x: string, b: string, y: string)
    requires '|' !in a && '|' !in b && a + "|" + x == b + "|" + y
    ensures a == b && x == y
  {
    UpToFirst(a, x);
    UpToFirst(b, y);
    assert (a + "|" + x)[|a| + 1..] == x && (b + "|" + y)[|b| + 1..] == y;
  }

  // ----- the printed map is parsed uniquely -----

  lemma CodesDiffer(c: char, x: string, d: char, y: string)
    requires Code(c) + x == Code(d) + y
    ensures c == d && x == y
  {
    var s, t := Code(c) + x, Code(d) + y;
    assert s[0] == Code(c)[0] && t[0] == Code(d)[0];
    if |Code(c)| == 2 && |Code(d)| == 2 {
      assert s[1] == Code(c)[1] && t[1] == Code(d)[1];
    }
    assert c == d;
    assert s[|Code(c)|..] == x && t[|Code(c)|..] == y;
  }

  /** A literal is at its closing quote exactly when nothing of it is left. */
  lemma LiteralEnds(a: string, x: string)
    ensures (Escape(a) + "\"" + x)[0] == '"' <==> a == ""
  {
    if a != "" {
      assert Escape(a)[0] == Code(a[0])[0];
    }
  }

  lemma EscapeUnfolds(s: string)
    ensures Escape(s) == if s == "" then "" else Code(s[0]) + Escape(s[1..])
  {
  }

  lemma {:induction false} EscapeEnds(a: string, x: string, b: string, y: string)
    requires Escape(a) + "\"" + x == Escape(b) + "\"" + y
    ensures a == b && x == y
  {
    hide Code, Escape;
    var s, t := Escape(a) + "\"" + x, Escape(b) + "\"" + y;
    LiteralEnds(a, x);
    LiteralEnds(b, y);
    EscapeUnfolds(a);
    EscapeUnfolds(b);
    if a == "" {
      assert s[1..] == x && t[1..] == y;
    } else {
      var u, v := Escape(a[1..]) + "\"" + x, Escape(b[1..]) + "\"" + y;
      assert s == Code(a[0]) + u && t == Code(b[0]) + v;
      CodesDiffer(a[0], u, b[0], v);
      EscapeEnds(a[1..], x, b[1..], y);
      assert a == [a[0]] + a[1..] && b == [b[0]] + b[1..];
    }
  }

  lemma QuotedEnds(a: string, x: string, b: string, y: string)
    requires Quoted(a) + x == Quoted(b) + y
    ensures a == b && x == y
  {
    hide Escape;
    assert (Quoted(a) + x)[1..] == Escape(a) + "\"" + x;
    assert (Quoted(b) + y)[1..] == Escape(b) + "\"" + y;
    EscapeEnds(a, x, b, y);
  }

  lemma EntryEnds(e: (string, string), x: string, f: (string, string), y: string)
    requires Entry(e) + x == Entry(f) + y
    ensures e == f && x == y
  {
    hide Quoted;
    var u, v := ": " + Quoted(e.1) + x, ": " + Quoted(f.1) + y;
    assert Entry(e) + x == Quoted(e.0) + u && Entry(f) + y == Quoted(f.0) + v;
    QuotedEnds(e.0, u, f.0, v);
    assert u[2..] == Quoted(e.1) + x && v[2..] == Quoted(f.1) + y;
    QuotedEnds(e.1, x, f.1, y);
  }

  lemma {:induction false} EntriesDiffer(m: Metadata, n: Metadata)
    requires Entries(m) == Entries(n)
    ensures m == n
  {
    hide Entry;
    if m == [] || n == [] {
      assert Entries(m)[0] == Entries(n)[0];
    } else {
      var x, y := Entries(m[1..]), Entries(n[1..]);
      assert Entries(m)[2..] == Entry(m[0]) + x && Entries(n)[2..] == Entry(n[0]) + y;
      EntryEnds(m[0], x, n[0], y);
      EntriesDiffer(m[1..], n[1..]);
      assert m == [m[0]] + m[1..] && n == [n[0]] + n[1..];
    }
  }

  lemma MetadataDiffer(m: Metadata, n: Metadata)
    requires MetadataText(m) == MetadataText(n)
    ensures m == n
  {
    hide Quoted, Entries, Entry;
    SecondCharacter(m);
    SecondCharacter(n);
    if m != [] {
      var x, y := Entries(m[1..]), Entries(n[1..]);
      assert MetadataText(m)[1..] == Entry(m[0]) + x && MetadataText(n)[1..] == Entry(n[0]) + y;
      EntryEnds(m[0], x, n[0], y);
      EntriesDiffer(m[1..], n[1..]);
      assert m == [m[0]] + m[1..] && n == [n[0]] + n[1..];
    }
  }

  lemma SecondCharacter(m: Metadata)
    ensures |MetadataText(m)| >= 2 && (MetadataText(m)[1] == '}' <==> m == [])
  {
    hide Escape, Entries;
    if m != [] {
      assert Entry(m[0])[0] == '"';
      assert MetadataText(m)[1] == Entry(m[0])[0];
    }
  }

  // ----- a printed map is never the tail of another one after a separator -----

  /** Reading a printed map from the left: outside or inside of a literal, after a backslash, or where
      no printed map can be. */
  datatype Mode = Outside | Inside | AfterBackslash | Broken

  function Next(m: Mode, c: char): Mode {
    match m
    case Outside => if c == '"' then Inside else if c in "{}:, " then Outside else Broken
    case Inside => if c == '"' then Outside else if c == '\\' then AfterBackslash else Inside
    case AfterBackslash => Inside
    case Broken => Broken
  }

  function Scan(m: Mode, s: string): Mode
    decreases |s|
  {
    if s == "" then m else Scan(Next(m, s[0]), s[1..])
  }

  lemma {:induction false} ScanSum(m: Mode, s: string, t: string)
    ensures Scan(m, s + t) == Scan(Scan(m, s), t)
    decreases |s|
  {
    if s == "" {
      assert s + t == t;
    } else {
      ScanSum(Next(m, s[0]), s[1..], t);
      assert (s + t)[1..] == s[1..] + t;
    }
  }

  lemma {:induction false} BrokenStaysBroken(s: string)
    ensures Scan(Broken, s) == Broken
  {
    if s != "" {
      BrokenStaysBroken(s[1..]);
    }
  }

  lemma ScanCode(c: char)
    ensures Scan(Inside, Code(c)) == Inside
    ensures Scan(Outside, Code(c)) in {Outside, Broken}
  {
    var s := Code(c);
    if |s| == 2 {
      ScanTwo(Inside, s);
      ScanTwo(Outside, s);
    } else {
      ScanOne(Inside, s);
      ScanOne(Outside, s);
    }
  }

  lemma ScanOne(m: Mode, s: string)
    requires |s| == 1
    ensures Scan(m, s) == Next(m, s[0])
  {
    assert s[1..] == "";
  }

  lemma ScanTwo(m: Mode, s: string)
    requires |s| == 2
    ensures Scan(m, s) == Next(Next(m, s[0]), s[1])
  {
    ScanOne(Next(m, s[0]), s[1..]);
  }

  /** The contents of a literal, read at their place and read as if they stood outside. */
  lemma {:induction false} ScanEscaped(s: string)
    ensures Scan(Inside, Escape(s)) == Inside
    ensures Scan(Outside, Escape(s)) in {Outside, Broken}
  {
    if s != "" {
      ScanCode(s[0]);
      ScanEscaped(s[1..]);
      ScanSum(Inside, Code(s[0]), Escape(s[1..]));
      ScanSum(Outside, Code(s[0]), Escape(s[1..]));
      BrokenStaysBroken(Escape(s[1..]));
    }
  }

  lemma ScanQuoted(s: string)
    ensures Scan(Outside, Quoted(s)) == Outside
    ensures Scan(Inside, Quoted(s)) in {Inside, Broken}
  {
    hide Escape, Scan;
    ScanEscaped(s);
    forall m: Mode ensures Scan(m, Quoted(s)) == Next(Scan(Next(m, '"'), Escape(s)), '"') {
      ScanSum(m, "\"" + Escape(s), "\"");
      ScanSum(m, "\"", Escape(s));
      ScanOne(m, "\"");
      ScanOne(Scan(m, "\"" + Escape(s)), "\"");
    }
  }

  lemma ScanPlain(m: Mode, s: string)
    requires 1 <= |s| <= 2 && m in {Outside, Inside} && forall c :: c in s ==> c in "{}:, "
    ensures Scan(m, s) == m
  {
    if |s| == 2 {
      ScanTwo(m, s);
      assert s[0] in s && s[1] in s;
    } else {
      ScanOne(m, s);
      assert s[0] in s;
    }
  }

  lemma ScanEntry(e: (string, string))
    ensures Scan(Outside, Entry(e)) == Outside
    ensures Scan(Inside, Entry(e)) in {Inside, Broken}
  {
    hide Quoted, Scan;
    ScanQuoted(e.0);
    ScanQuoted(e.1);
    ScanPlain(Outside, ": ");
    ScanPlain(Inside, ": ");
    BrokenStaysBroken(": ");
    BrokenStaysBroken(Quoted(e.1));
    forall m: Mode ensures Scan(m, Entry(e)) == Scan(Scan(Scan(m, Quoted(e.0)), ": "), Quoted(e.1)) {
      ScanSum(m, Quoted(e.0) + ": ", Quoted(e.1));
      ScanSum(m, Quoted(e.0), ": ");
    }
  }

  lemma {:induction false} ScanEntries(m: Metadata)
    ensures Scan(Outside, Entries(m)) == Outside
    ensures Scan(Inside, Entries(m)) in {Inside, Broken}
  {
    hide Entry, Scan;
    if m == [] {
      ScanPlain(Outside, "}");
      ScanPlain(Inside, "}");
    } else {
      ScanEntry(m[0]);
      ScanEntries(m[1..]);
      ScanPlain(Outside, ", ");
      ScanPlain(Inside, ", ");
      BrokenStaysBroken(Entries(m[1..]));
      forall d: Mode ensures Scan(d, Entries(m)) == Scan(Scan(Scan(d, ", "), Entry(m[0])), Entries(m[1..])) {
        ScanSum(d, ", " + Entry(m[0]), Entries(m[1..]));
        ScanSum(d, ", ", Entry(m[0]));
      }
    }
  }

  lemma ScanMetadata(m: Metadata)
    ensures Scan(Outside, MetadataText(m)) == Outside
    ensures Scan(Inside, MetadataText(m)) in {Inside, Broken}
  {
    hide Entry, Scan;
    if m == [] {
      ScanPlain(Outside, "{}");
      ScanPlain(Inside, "{}");
    } else {
      ScanEntry(m[0]);
      ScanEntries(m[1..]);
      ScanPlain(Outside, "{");
      ScanPlain(Inside, "{");
      BrokenStaysBroken(Entries(m[1..]));
      forall d: Mode ensures Scan(d, MetadataText(m)) == Scan(Scan(Scan(d, "{"), Entry(m[0])), Entries(m[1..])) {
        ScanSum(d, "{" + Entry(m[0]), Entries(m[1..]));
        ScanSum(d, "{", Entry(m[0]));
      }
    }
  }

  /** Inside a printed map every separator is inside a literal, so what follows it is no printed map. */
  lemma NoInnerMetadata(m: Metadata, before: string, n: Metadata)
    ensures MetadataText(m) != before + "|" + MetadataText(n)
  {
    if MetadataText(m) == before + "|" + MetadataText(n) {
      hide MetadataText, Scan;
      ScanMetadata(m);
      ScanMetadata(n);
      ScanSum(Outside, before + "|", MetadataText(n));
      ScanSum(Outside, before, "|");
      ScanOne(Scan(Outside, before), "|");
      BrokenStaysBroken(MetadataText(n));
    }
  }

  /** So the metadata of a joined text is found from the right. */
  lemma SplitMetadata(x: string, m: Metadata, y: string, n: Metadata)
    requires x + "|" + MetadataText(m) == y + "|" + MetadataText(n)
    ensures x == y && m == n
  {
    hide MetadataText;
    var s, t := x + "|" + MetadataText(m), y + "|" + MetadataText(n);
    if |x| < |y| {
      var mid := y[|x| + 1..];
      assert MetadataText(m) == s[|x| + 1..] == t[|x| + 1..];
      assert t[|x| + 1..] == mid + "|" + MetadataText(n);
      NoInnerMetadata(m, mid, n);
    } else if |y| < |x| {
      var mid := x[|y| + 1..];
      assert MetadataText(n) == t[|y| + 1..] == s[|y| + 1..];
      assert s[|y| + 1..] == mid + "|" + MetadataText(m);
      NoInnerMetadata(n, mid, m);
    } else {
      assert s[..|x|] == x && t[..|y|] == y;
      assert s[|x| + 1..] == MetadataText(m) && t[|y| + 1..] == MetadataText(n);
      MetadataDiffer(m, n);
    }
  }

  // ----- actor, action and outcome -----

  function Middle(actor: string, action: string, outcome: string): string {
    actor + "|" + action + "|" + outcome
  }

  predicate Plain(actor: string, action: string, outcome: string) {
    '|' !in actor && '|' !in action && '|' !in outcome
  }

  function Bars(s: string): nat {
    if s == "" then 0 else (if s[0] == '|' then 1 else 0) + Bars(s[1..])
  }

  lemma {:induction false} BarsOfSum(s: string, t: string)
    ensures Bars(s + t) == Bars(s) + Bars(t)
  {
    if s == "" {
      assert s + t == t;
    } else {
      BarsOfSum(s[1..], t);
      assert (s + t)[1..] == s[1..] + t;
    }
  }

  lemma {:induction false} NoBars(s: string)
    ensures Bars(s) == 0 <==> '|' !in s
  {
    if s != "" {
      NoBars(s[1..]);
      assert s == [s[0]] + s[1..];
    }
  }

  lemma BarsOfMiddle(actor: string, action: string, outcome: string)
    ensures Bars(Middle(actor, action, outcome)) == Bars(actor) + Bars(action) + Bars(outcome) + 2
    ensures Bars(Middle(actor, action, outcome)) == 2 <==> Plain(actor, action, outcome)
  {
    assert Middle(actor, action, outcome) == actor + ("|" + (action + ("|" + outcome)));
    BarsOfSum(actor, "|" + (action + ("|" + outcome)));
    BarsOfSum("|", action + ("|" + outcome));
    BarsOfSum(action, "|" + outcome);
    BarsOfSum("|", outcome);
    assert Bars("|") == 1 + Bars("|"[1..]);
    NoBars(actor);
    NoBars(action);
    NoBars(outcome);
  }

  /** Fields without separators are recovered, whatever the fields they are compared with contain. */
  lemma SplitMiddle(a: string, b: string, c: string, x: string, y: string, z: string)
    requires Plain(a, b, c) && Middle(a, b, c) == Middle(x, y, z)
    ensures a == x && b == y && c == z
  {
    BarsOfMiddle(a, b, c);
    BarsOfMiddle(x, y, z);
    assert Middle(a, b, c) == a + "|" + (b + "|" + c);
    assert Middle(x, y, z) == x + "|" + (y + "|" + z);
    SplitFirst(a, b + "|" + c, x, y + "|" + z);
    SplitFirst(b, c, y, z);
  }

  /** With a separator in one of them there is another reading. */
  lemma OtherReading(a: string, b: string, c: string) returns (x: string, y: string, z: string)
    requires !Plain(a, b, c)
    ensures Middle(x, y, z) == Middle(a, b, c) && (x, y, z) != (a, b, c)
  {
    if '|' in a {
      var i :| 0 <= i < |a| && a[i] == '|';
      x, y, z := a[..i], a[i + 1..], b + "|" + c;
      assert a == x + "|" + y;
      assert |x| < |a|;
    } else if '|' in b {
      var i :| 0 <= i < |b| && b[i] == '|';
      x, y, z := a, b[..i], b[i + 1..] + "|" + c;
      assert b == y + "|" + b[i + 1..];
      assert |y| < |b|;
    } else {
      var i :| 0 <= i < |c| && c[i] == '|';
      x, y, z := a + "|" + b, c[..i], c[i + 1..];
      assert c == y + "|" + z;
      assert |x| > |a|;
    }
  }

  /** The whole head is recovered when actor, action and outcome of one side hold no separator. */
  lemma SplitHead(id: Word, at: Word, a: string, b: string, c: string, m: Metadata,
                  id2: Word, at2: Word, x: string, y: string, z: string, n: Metadata)
    requires Plain(a, b, c) && Head(id, at, a, b, c, m) == Head(id2, at2, x, y, z, n)
    ensures id == id2 && at == at2 && a == x && b == y && c == z && m == n
  {
    hide MetadataText;
    assert Head(id, at, a, b, c, m) == id + "|" + (at + "|" + (Middle(a, b, c) + "|" + MetadataText(m)));
    assert Head(id2, at2, x, y, z, n) == id2 + "|" + (at2 + "|" + (Middle(x, y, z) + "|" + MetadataText(n)));
    hide Head, Middle;
    SplitFirst(id, at + "|" + (Middle(a, b, c) + "|" + MetadataText(m)), id2, at2 + "|" + (Middle(x, y, z) + "|" + MetadataText(n)));
    SplitFirst(at, Middle(a, b, c) + "|" + MetadataText(m), at2, Middle(x, y, z) + "|" + MetadataText(n));
    SplitMetadata(Middle(a, b, c), m, Middle(x, y, z), n);
    SplitMiddle(a, b, c, x, y, z);
  }

  /** The head depends on actor, action and outcome through their joined text alone. */
  lemma HeadOfMiddle(id: Word, at: Word, a: string, b: string, c: string, x: string, y: string, z: string, m: Metadata)
    requires Middle(a, b, c) == Middle(x, y, z)
    ensures Head(id, at, a, b, c, m) == Head(id, at, x, y, z, m)
  {
    hide MetadataText;
    assert Head(id, at, a, b, c, m) == id + "|" + at + "|" + Middle(a, b, c) + "|" + MetadataText(m);
    assert Head(id, at, x, y, z, m) == id + "|" + at + "|" + Middle(x, y, z) + "|" + MetadataText(m);
  }
}
