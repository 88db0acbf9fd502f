/** Shared vocabulary of the model: optional values, the ASCII character
    classes Python's str methods are applied to, and the two list idioms the
    bot repeats everywhere (cut a text at N characters and add "...",
    append to a list and keep its last N entries). */
module Common {
  /** The bullet " • " as several source files store it: their UTF-8 text
      was once read as Mac Roman and saved again, so each emoji and bullet
      in them is held, and sent, as the characters its bytes read as. */
  const StoredBullet: string := "\U{201A}\U{00C4}\U{00A2}"


  datatype Option<+T> = None | Some(value: T) {
    function GetOr(default: T): T {
      match this
      case Some(v) => v
      case None => default
    }
  }

  /** Python truthiness of an optional string: present and non-empty. */
  predicate Truthy(o: Option<string>) {
    o.Some? && o.value != ""
  }

  /** The ASCII characters `str.isspace()` accepts, which `str.strip()`,
      `str.split()` and `\s` treat as whitespace: space, tab, the line
      breaks, vertical tab, form feed and the separators 0x1C-0x1F. */
  predicate IsSpace(c: char) {
    c == ' ' || c == '\t' || c == '\n' || c == '\r' || c == '\U{000B}' || c == '\U{000C}'
    || '\U{001C}' <= c <= '\U{001F}'
  }

  predicate IsDigit(c: char) {
    '0' <= c <= '9'
  }

  /** `str.isdigit()`: non-empty and every character a digit. */
  predicate IsDigits(s: string) {
    |s| > 0 && forall i :: 0 <= i < |s| ==> IsDigit(s[i])
  }

  /** Decimal value of a string of digits (most significant first). */
  function DigitsValue(s: string): (n: nat)
    requires forall i :: 0 <= i < |s| ==> IsDigit(s[i])
    ensures |s| == 1 ==> n == (s[0] as int) - ('0' as int)
  {
    if s == [] then 0
    else
      assert IsDigit(s[|s| - 1]);
      DigitsValue(s[..|s| - 1]) * 10 + ((s[|s| - 1] as int) - ('0' as int))
  }

  /** `int(s)` for the strings this model feeds it: an optional sign and
      decimal digits; anything else raises ValueError, modelled as None.
      Python also accepts surrounding whitespace and `_` between digits
      ("1_000"); those spellings are read here as not parsing. */
  function ParseInt(s: string): (r: Option<int>)
    ensures r.Some? <==> IsDigits(s) || (|s| > 1 && (s[0] == '-' || s[0] == '+') && IsDigits(s[1..]))
    ensures IsDigits(s) ==> r == Some(DigitsValue(s))
    ensures |s| > 1 && s[0] == '-' && IsDigits(s[1..]) ==> r == Some(-(DigitsValue(s[1..]) as int))
    ensures |s| > 1 && s[0] == '+' && IsDigits(s[1..]) ==> r == Some(DigitsValue(s[1..]))
    ensures s == "" ==> r == None
  {
    if IsDigits(s) then Some(DigitsValue(s))
    else if |s| > 1 && s[0] == '-' && IsDigits(s[1..]) then Some(-(DigitsValue(s[1..]) as int))
    else if |s| > 1 && s[0] == '+' && IsDigits(s[1..]) then Some(DigitsValue(s[1..]))
    else None
  }

  function LowerChar(c: char): char {
    if 'A' <= c <= 'Z' then (c as int + 32) as char else c
  }

  function UpperChar(c: char): char {
    if 'a' <= c <= 'z' then (c as int - 32) as char else c
  }

  /** `str.lower()` on ASCII letters. */
  function Lower(s: string): (r: string)
    ensures |r| == |s|
    ensures forall i :: 0 <= i < |s| ==> r[i] == LowerChar(s[i])
  {
    seq(|s|, i requires 0 <= i < |s| => LowerChar(s[i]))
  }

  /** `str.upper()` on ASCII letters. */
  function Upper(s: string): (r: string)
    ensures |r| == |s|
    ensures forall i :: 0 <= i < |s| ==> r[i] == UpperChar(s[i])
  {
    seq(|s|, i requires 0 <= i < |s| => UpperChar(s[i]))
  }

  predicate StartsWith(s: string, prefix: string) {
    |prefix| <= |s| && s[..|prefix|] == prefix
  }

  predicate EndsWith(s: string, suffix: string) {
    |suffix| <= |s| && s[|s| - |suffix|..] == suffix
  }

  predicate OccursAt(hay: string, needle: string, i: int) {
    0 <= i <= |hay| - |needle| && hay[i..i + |needle|] == needle
  }

  /** Python's `needle in hay` on strings. */
  predicate Contains(hay: string, needle: string) {
    exists i :: 0 <= i <= |hay| - |needle| && OccursAt(hay, needle, i)
  }

  /** `str.lstrip()`. */
  function StripLeft(s: string): (r: string)
    ensures |r| <= |s|
    ensures r == [] || !IsSpace(r[0])
    ensures forall i :: 0 <= i < |s| - |r| ==> IsSpace(s[i])
  {
    if s != [] && IsSpace(s[0]) then StripLeft(s[1..]) else s
  }

  /** `str.rstrip()`. */
  function StripRight(s: string): (r: string)
    ensures |r| <= |s|
    ensures r == [] || !IsSpace(r[|r| - 1])
    ensures forall i :: |r| <= i < |s| ==> IsSpace(s[i])
  {
    if s != [] && IsSpace(s[|s| - 1]) then StripRight(s[..|s| - 1]) else s
  }

  /** `lstrip` removes a prefix. */
  lemma {:induction false} StripLeftIsSuffix(s: string)
    ensures StripLeft(s) == s[|s| - |StripLeft(s)|..]
    decreases |s|
  {
    if s != [] && IsSpace(s[0]) {
      StripLeftIsSuffix(s[1..]);
    }
  }

  /** `rstrip` removes a suffix. */
  lemma {:induction false} StripRightIsPrefix(s: string)
    ensures StripRight(s) == s[..|StripRight(s)|]
    decreases |s|
  {
    if s != [] && IsSpace(s[|s| - 1]) {
      StripRightIsPrefix(s[..|s| - 1]);
    }
  }

  /** Every character of `s` outside the `n` characters from `i` on is whitespace. */
  predicate SpaceAround(s: string, i: int, n: int) {
    forall k :: 0 <= k < |s| && (k < i || i + n <= k) ==> IsSpace(s[k])
  }

  /** `str.strip()`: neither starts nor ends with whitespace. */
  function Strip(s: string): (r: string)
    ensures |r| <= |s|
    ensures r == [] || (!IsSpace(r[0]) && !IsSpace(r[|r| - 1]))
  {
    StripLeftIsSuffix(s);
    StripRightIsPrefix(StripLeft(s));
    StripRight(StripLeft(s))
  }

  /** What `str.strip()` keeps: a slice of `s` with only whitespace around
      it. */
  lemma StripIsTrimmed(s: string)
    ensures var r := Strip(s);
            exists i :: 0 <= i <= |s| - |r| && r == s[i..i + |r|] && SpaceAround(s, i, |r|)
  {
    var l := StripLeft(s);
    StripLeftIsSuffix(s);
    StripRightIsPrefix(l);
    var r := StripRight(l);
    assert r == Strip(s);
    var i := |s| - |l|;
    assert r == s[i..i + |r|];
    SpaceAfterKept(s, l, |r|);
  }

  /** Whitespace after the first `n` characters of a suffix `l` of `s` is
      whitespace of `s`. */
  lemma SpaceAfterKept(s: string, l: string, n: nat)
    requires |l| <= |s| && l == s[|s| - |l|..] && n <= |l|
    requires forall k :: n <= k < |l| ==> IsSpace(l[k])
    requires forall k :: 0 <= k < |s| - |l| ==> IsSpace(s[k])
    ensures SpaceAround(s, |s| - |l|, n)
  {
    var i := |s| - |l|;
    forall k | 0 <= k < |s| && (k < i || i + n <= k) ensures IsSpace(s[k]) {
      if i + n <= k {
        assert s[k] == l[k - i];
      }
    }
  }

  /** `text[:n] + "..." if len(text) > n else text`. */
  function Truncate(text: string, n: nat): (r: string)
    ensures |text| <= n ==> r == text
    ensures |text| > n ==> |r| == n + 3 && r[..n] == text[..n] && r[n..] == "..."
  {
    if |text| > n then text[..n] + "..." else text
  }

  /** `lst.append(x); lst = lst[-n:]`: the last n entries of `window + [x]`. */
  function AppendKeepLast<T>(window: seq<T>, x: T, n: nat): (r: seq<T>)
    requires n > 0
    ensures |r| == if |window| + 1 <= n then |window| + 1 else n
    ensures r[|r| - 1] == x
    ensures r == (window + [x])[|window| + 1 - |r|..]
  {
    var all := window + [x];
    if |all| > n then all[|all| - n..] else all
  }

  /** `''.join(parts)`. */
  function Join(parts: seq<string>): (r: string)
    ensures parts == [] ==> r == ""
  {
    if parts == [] then "" else Join(parts[..|parts| - 1]) + parts[|parts| - 1]
  }

  /** `c * n` for a one-character string `c`. */
  function RepeatChar(c: char, n: nat): (r: string)
    ensures |r| == n
    ensures forall i :: 0 <= i < n ==> r[i] == c
  {
    if n == 0 then "" else RepeatChar(c, n - 1) + [c]
  }

  /** `int(s)` as Python reads a string: surrounding whitespace is ignored. */
  function PyInt(s: string): (r: Option<int>)
    ensures r == ParseInt(Strip(s))
    ensures IsDigits(s) ==> r == Some(DigitsValue(s))
    ensures Strip(s) == "" ==> r == None
  {
    if IsDigits(s) then StripDigits(s); ParseInt(s) else ParseInt(Strip(s))
  }

  /** `str(n)` for a natural number. */
  function NatToString(n: nat): (s: string)
    ensures IsDigits(s) && DigitsValue(s) == n
    ensures n < 10 <==> |s| == 1
  {
    if n < 10 then [('0' as int + n) as char]
    else
      var init := NatToString(n / 10);
      var s := init + NatToString(n % 10);
      assert s[..|s| - 1] == init;
      s
  }

  /** `str(n)`. */
  function IntToString(n: int): (s: string)
    ensures n >= 0 ==> s == NatToString(n)
    ensures n < 0 ==> s == "-" + NatToString(-n)
  {
    if n >= 0 then NatToString(n) else "-" + NatToString(-n)
  }

  /** Printing a number and reading it back gives the number. */
  lemma IntToStringRoundTrip(n: int)
    ensures ParseInt(IntToString(n)) == Some(n)
  {
    if n < 0 {
      var s := IntToString(n);
      assert s[1..] == NatToString(-n);
      assert !IsDigits(s) by { assert !IsDigit(s[0]); }
    }
  }

  /** `f"{n:02d}"`: at least two characters, zero-padded; a negative number
      already has two with its sign. */
  function Pad2(n: int): (s: string)
    ensures 0 <= n < 100 ==> |s| == 2 && IsDigits(s) && DigitsValue(s) == n
    ensures n >= 10 || n < 0 ==> s == IntToString(n)
  {
    if 0 <= n < 10 then
      var d := NatToString(n);
      var s := "0" + d;
      assert s[..1] == "0";
      s
    else IntToString(n)
  }

  /** A channel argument: the id inside a `<#...>` mention, else the
      argument itself; an id that is not all digits is refused. */
  function ChannelArgument(arg: string): (id: Option<int>)
    ensures id.Some? ==> id.value >= 0
    ensures IsDigits(arg) ==> id == Some(DigitsValue(arg))
    ensures !(StartsWith(arg, "<#") && EndsWith(arg, ">")) ==> (id.Some? <==> IsDigits(arg))
    ensures StartsWith(arg, "<#") && EndsWith(arg, ">") ==>
              && |arg| >= 3
              && (id.Some? <==> IsDigits(arg[2..|arg| - 1]))
              && (id.Some? ==> id.value == DigitsValue(arg[2..|arg| - 1]))
  {
    var text := if StartsWith(arg, "<#") && EndsWith(arg, ">") then
                  assert arg[..2][1] == '#';
                  arg[2..|arg| - 1]
                else arg;
    if IsDigits(text) then Some(DigitsValue(text)) else None
  }

  /** A mention wraps the channel's id. */
  lemma ChannelMention(n: nat)
    ensures ChannelArgument("<#" + NatToString(n) + ">") == Some(n)
  {
    var arg := "<#" + NatToString(n) + ">";
    assert arg[..2] == "<#";
    assert arg[|arg| - 1..] == ">";
    assert arg[2..|arg| - 1] == NatToString(n);
  }

  /** A mention of any string of digits resolves to that string's value,
      leading zeros included. */
  lemma ChannelMentionDigits(d: string)
    requires IsDigits(d)
    ensures ChannelArgument("<#" + d + ">") == Some(DigitsValue(d))
  {
    var arg := "<#" + d + ">";
    assert arg[..2] == "<#";
    assert arg[|arg| - 1..] == ">";
    assert arg[2..|arg| - 1] == d;
  }

  /** `sep.join(parts)`. */
  function JoinWith(parts: seq<string>, sep: char): string {
    if parts == [] then "" else if |parts| == 1 then parts[0] else parts[0] + [sep] + JoinWith(parts[1..], sep)
  }

  /** `s.split(sep)` for a one-character separator: the pieces between
      separators, one more than there are separators. */
  function Split(s: string, sep: char): (parts: seq<string>)
    ensures |parts| >= 1
    ensures forall i :: 0 <= i < |parts| ==> sep !in parts[i]
    decreases |s|
  {
    if sep !in s then [s]
    else
      var i := FirstIndex(s, sep);
      var rest := Split(s[i + 1..], sep);
      [s[..i]] + rest
  }

  /** Joining the pieces of a split with the separator gives the text back. */
  lemma {:induction false} SplitJoins(s: string, sep: char)
    ensures JoinWith(Split(s, sep), sep) == s
    decreases |s|
  {
    if sep in s {
      var i := FirstIndex(s, sep);
      var rest := Split(s[i + 1..], sep);
      SplitJoins(s[i + 1..], sep);
      var parts := [s[..i]] + rest;
      assert Split(s, sep) == parts;
      assert parts[1..] == rest;
      assert JoinWith(parts, sep) == s[..i] + [sep] + JoinWith(rest, sep);
      assert s == s[..i] + [sep] + s[i + 1..];
    }
  }

  /** The first piece of a split is what comes before the separator. */
  lemma SplitFirst(a: string, rest: string, sep: char)
    requires sep !in a
    ensures Split(a + [sep] + rest, sep)[0] == a && Split(a, sep)[0] == a
  {
    var s := a + [sep] + rest;
    forall j | 0 <= j < |a|
      ensures s[j] != sep
    {
      assert s[j] == a[j] && a[j] in a;
    }
    FirstIndexIs(s, sep, |a|);
    assert s[..|a|] == a;
  }

  /** Text with exactly one separator splits into the parts around it. */
  lemma SplitTwo(a: string, b: string, sep: char)
    requires sep !in a && sep !in b
    ensures Split(a + [sep] + b, sep) == [a, b]
  {
    var s := a + [sep] + b;
    forall j | 0 <= j < |a|
      ensures s[j] != sep
    {
      assert s[j] == a[j] && a[j] in a;
    }
    assert s[|a|] == sep;
    FirstIndexIs(s, sep, |a|);
    assert s[..|a|] == a;
    assert s[|a| + 1..] == b;
  }

  function FirstIndex(s: string, c: char): (i: nat)
    requires c in s
    ensures i < |s| && s[i] == c && c !in s[..i]
  {
    if s[0] == c then 0
    else
      var i := FirstIndex(s[1..], c) + 1;
      assert s[..i] == [s[0]] + s[1..][..i - 1];
      i
  }

  /** The first occurrence is the one with no occurrence before it. */
  lemma {:induction false} FirstIndexIs(s: string, c: char, i: nat)
    requires i < |s| && s[i] == c && forall j :: 0 <= j < i ==> s[j] != c
    ensures FirstIndex(s, c) == i
    decreases i
  {
    if i > 0 {
      FirstIndexIs(s[1..], c, i - 1);
    }
  }

  /** A non-empty run of non-whitespace characters. */
  predicate IsWord(w: string) {
    w != "" && forall j :: 0 <= j < |w| ==> !IsSpace(w[j])
  }

  /** `s.split()`: the maximal runs of non-whitespace characters, in order. */
  function Words(s: string): (ws: seq<string>)
    ensures forall i :: 0 <= i < |ws| ==> IsWord(ws[i])
    decreases |s|
  {
    var t := StripLeft(s);
    if t == [] then []
    else
      var n := WordLength(t);
      assert IsWord(t[..n]);
      [t[..n]] + Words(t[n..])
  }

  /** The length of the run of non-whitespace characters `s` starts with. */
  function WordLength(s: string): (n: nat)
    ensures n <= |s|
    ensures forall j :: 0 <= j < n ==> !IsSpace(s[j])
    ensures n == |s| || IsSpace(s[n])
    ensures s != [] && !IsSpace(s[0]) ==> n > 0
  {
    if s == [] || IsSpace(s[0]) then 0 else 1 + WordLength(s[1..])
  }

  /** A word followed by whitespace or nothing is one run. */
  lemma {:induction false} WordLengthOfWord(w: string, rest: string)
    requires IsWord(w) && (rest == [] || IsSpace(rest[0]))
    ensures WordLength(w + rest) == |w|
    decreases |w|
  {
    assert (w + rest)[0] == w[0];
    if |w| > 1 {
      assert (w + rest)[1..] == w[1..] + rest;
      WordLengthOfWord(w[1..], rest);
    } else {
      assert (w + rest)[1..] == rest;
    }
  }

  /** A character that is neither the separator nor in any part is not in
      the joined string. */
  lemma {:induction false} JoinWithAvoids(parts: seq<string>, sep: char, c: char)
    requires c != sep && forall i :: 0 <= i < |parts| ==> c !in parts[i]
    ensures c !in JoinWith(parts, sep)
    decreases |parts|
  {
    if |parts| > 1 {
      JoinWithAvoids(parts[1..], sep, c);
    }
  }

  /** Words joined by single spaces split back into the same words. */
  lemma {:induction false} WordsOfJoin(ws: seq<string>)
    requires forall i :: 0 <= i < |ws| ==> IsWord(ws[i])
    ensures Words(JoinWith(ws, ' ')) == ws
    decreases |ws|
  {
    if ws == [] {
    } else if |ws| == 1 {
      var w := ws[0];
      assert StripLeft(w) == w;
      WordLengthOfWord(w, []);
      assert w + [] == w;
      assert w[|w|..] == [];
    } else {
      var w := ws[0];
      var rest := JoinWith(ws[1..], ' ');
      var s := JoinWith(ws, ' ');
      assert s == w + ([' '] + rest);
      assert StripLeft(s) == s;
      WordLengthOfWord(w, [' '] + rest);
      assert s[|w|..] == [' '] + rest;
      assert ([' '] + rest)[1..] == rest;
      assert StripLeft([' '] + rest) == StripLeft(rest);
      WordsOfJoin(ws[1..]);
      assert Words(rest) == ws[1..];
      assert Words(s[|w|..]) == Words(rest) by {
        var t := [' '] + rest;
        assert StripLeft(t) == StripLeft(rest);
      }
    }
  }

  /** How a stand-alone runner's Discord session goes: whether the channel
      resolves, whether the send goes through, and whether the client
      starts and closes without raising. */
  datatype Delivery = Delivery(channelFound: bool, sendOk: bool, clientOk: bool)

  /** A field of a Discord embed. */
  datatype Field = Field(name: string, value: string, inline: bool)

  /** The parts of a Discord embed the model looks at. */
  datatype Embed = Embed(title: string, description: string, url: Option<string>, color: Option<int>,
                         fields: seq<Field>, footer: Option<string>)

  /** A bounded window survives an append with its order: every entry that
      is still present sits behind its old neighbours, shifted by the number
      of entries that dropped off the front. */
  lemma {:induction false} AppendKeepLastKeepsOrder<T>(window: seq<T>, x: T, n: nat, i: nat)
    requires n > 0 && i < |window|
    requires |window| + 1 - i <= n
    ensures var r := AppendKeepLast(window, x, n);
            var dropped := |window| + 1 - |r|;
            i >= dropped && r[i - dropped] == window[i]
  {
    var r := AppendKeepLast(window, x, n);
    var all := window + [x];
    assert r == all[|all| - |r|..];
    assert all[i] == window[i];
  }

  /** Stripping an already stripped string changes nothing. */
  lemma {:induction false} StripIdempotent(s: string)
    ensures Strip(Strip(s)) == Strip(s)
  {
    var t := Strip(s);
    if t != [] {
      assert StripLeft(t) == t;
      assert StripRight(t) == t;
    } else {
      assert StripLeft(t) == t;
    }
  }

  /** Text that starts and ends with non-whitespace is its own strip. */
  lemma StripUnchanged(s: string)
    requires s != [] && !IsSpace(s[0]) && !IsSpace(s[|s| - 1])
    ensures Strip(s) == s
  {
    assert StripLeft(s) == s;
    assert StripRight(s) == s;
  }

  /** A string of digits has no whitespace to strip. */
  lemma StripDigits(s: string)
    requires IsDigits(s)
    ensures Strip(s) == s
  {
    assert !IsSpace(s[0]);
    assert StripLeft(s) == s;
  }

  /** Lower-casing twice is lower-casing once. */
  lemma LowerIdempotent(s: string)
    ensures Lower(Lower(s)) == Lower(s)
  {
  }
}
