/**
 * How Swift string interpolation renders an `Optional<String>`: `"\(x)"` for an optional `x`
 * uses the debug description, `Optional("…")` with the contents escaped as a string literal,
 * or `nil`.  Also a substring predicate used to state what a message contains.
 */
module Text {
  import opened Wrappers

  /** `sub` occurs in `s` starting at position `k`. */
  predicate OccursAt(s: string, sub: string, k: int) {
    0 <= k <= |s| - |sub| && s[k..k + |sub|] == sub
  }

  /** `sub` occurs somewhere in `s`. */
  predicate Contains(s: string, sub: string) {
    exists k | 0 <= k <= |s| - |sub| :: OccursAt(s, sub, k)
  }

  /** `s` ends with `suffix`. */
  predicate EndsWith(s: string, suffix: string) {
    |suffix| <= |s| && s[|s| - |suffix|..] == suffix
  }

  lemma ContainsMiddle(a: string, b: string, c: string)
    ensures Contains(a + b + c, b)
  {
    var s := a + b + c;
    assert OccursAt(s, b, |a|);
  }

  lemma EndsWithTail(a: string, b: string)
    ensures EndsWith(a + b, b)
  {
  }

  /** The escape sequence `String.debugDescription` writes for one character. */
  function EscapeChar(c: char): (e: string)
    ensures 1 <= |e| <= 2
    ensures |e| == 1 <==> Plain(c)
    ensures |e| == 1 ==> e == [c]
    ensures |e| == 2 ==> e[0] == '\\' && EscapedBy(e[1]) == Some(c)
  {
    if c == '\\' then "\\\\"
    else if c == '\'' then "\\'"
    else if c == '"' then "\\\""
    else if c == '\0' then "\\0"
    else if c == '\n' then "\\n"
    else if c == '\r' then "\\r"
    else if c == '\t' then "\\t"
    else [c]
  }

  /** Whether `c` is written as itself, without a backslash. */
  predicate Plain(c: char) {
    c !in {'\\', '\'', '"', '\0', '\n', '\r', '\t'}
  }

  /** The character a backslash followed by `c` stands for, if any. */
  function EscapedBy(c: char): Option<char> {
    if c == '\\' then Some('\\')
    else if c == '\'' then Some('\'')
    else if c == '"' then Some('"')
    else if c == '0' then Some('\0')
    else if c == 'n' then Some('\n')
    else if c == 'r' then Some('\r')
    else if c == 't' then Some('\t')
    else None
  }

  /** The body of a Swift string literal for `s` (without the surrounding quotes). */
  function Escape(s: string): (e: string)
    ensures |s| <= |e| <= 2 * |s|
  {
    if s == [] then [] else EscapeChar(s[0]) + Escape(s[1..])
  }

  /** Reads back the body of a string literal; the partner of Escape. */
  function Unescape(e: string): Option<string>
    decreases |e|
  {
    if e == [] then Some([])
    else if e[0] != '\\' then
      if Plain(e[0]) then
        match Unescape(e[1..])
        case None => None
        case Some(rest) => Some([e[0]] + rest)
      else None
    else if |e| < 2 then None
    else
      match EscapedBy(e[1])
      case None => None
      case Some(c) =>
        match Unescape(e[2..])
        case None => None
        case Some(rest) => Some([c] + rest)
  }

  lemma {:induction false} EscapeRoundTrip(s: string)
    ensures Unescape(Escape(s)) == Some(s)
  {
    if s != [] {
      EscapeRoundTrip(s[1..]);
      var e := Escape(s);
      var head := EscapeChar(s[0]);
      assert e == head + Escape(s[1..]);
      if |head| == 1 {
        assert e[1..] == Escape(s[1..]);
      } else {
        assert e[0] == '\\' && e[1] == head[1] && |e| >= 2;
        assert e[2..] == Escape(s[1..]);
        assert EscapedBy(e[1]) == Some(s[0]);
        assert Unescape(e) == Some([s[0]] + s[1..]);
      }
      assert [s[0]] + s[1..] == s;
    }
  }

  /** What `"\(o)"` renders for an optional string `o`. */
  function Describe(o: Option<string>): (d: string)
    ensures o.None? ==> d == "nil"
    ensures o.Some? ==> |d| >= 12 && d[..10] == "Optional(\"" && d[|d| - 2..] == "\")"
  {
    match o
    case None => "nil"
    case Some(s) => "Optional(\"" + Escape(s) + "\")"
  }

  /** Reads back a rendered optional; the partner of Describe. */
  function ParseDescription(d: string): Option<Option<string>> {
    if d == "nil" then Some(None)
    else if |d| >= 12 && d[..10] == "Optional(\"" && d[|d| - 2..] == "\")" then
      match Unescape(d[10..|d| - 2])
      case None => None
      case Some(s) => Some(Some(s))
    else None
  }

  /** Rendering an optional loses nothing: present and absent are told apart, and the contents survive. */
  lemma DescribeRoundTrip(o: Option<string>)
    ensures ParseDescription(Describe(o)) == Some(o)
  {
    if o.Some? {
      var d := Describe(o);
      assert d != "nil" by { assert |d| >= 12; }
      assert d[10..|d| - 2] == Escape(o.value);
      EscapeRoundTrip(o.value);
    }
  }
}
