// Shared vocabulary of the model: optional values, results, the outcome of an
// external tool run, and the handful of Rust string operations the parsers use.

module Common {

  datatype Option<T> = None | Some(value: T)

  datatype Result<T, E> = Ok(value: T) | Err(error: E)
  {
    predicate IsFailure() { Err? }

    function PropagateFailure<U>(): Result<U, E>
      requires Err?
    {
      Err(error)
    }

    function Extract(): T
      requires Ok?
    {
      value
    }
  }

  /** A parsed JSON value (`serde_json::Value`). Objects are maps from key
    * to value; numbers are kept as opaque reals and never computed with. */
  datatype Json =
    | JNull
    | JBool(b: bool)
    | JNumber(n: real)
    | JString(str: string)
    | JArray(items: seq<Json>)
    | JObject(fields: map<string, Json>)

  /** `value.get(key)`: the field of an object, nothing for any other value. */
  function Field(j: Json, key: string): (r: Option<Json>)
    ensures r.Some? <==> j.JObject? && key in j.fields
    ensures r.Some? ==> r.value == j.fields[key]
  {
    if j.JObject? && key in j.fields then Some(j.fields[key]) else None
  }

  /** `value.get(key).and_then(Value::as_str)`. */
  function StrField(j: Json, key: string): (r: Option<string>)
    ensures r.Some? <==> Field(j, key).Some? && Field(j, key).value.JString?
  {
    match Field(j, key)
    case Some(JString(s)) => Some(s)
    case _ => None
  }

  /** `value[key].as_object()`. */
  function ObjectField(j: Json, key: string): (r: Option<map<string, Json>>)
    ensures r.Some? <==> Field(j, key).Some? && Field(j, key).value.JObject?
  {
    match Field(j, key)
    case Some(JObject(m)) => Some(m)
    case _ => None
  }

  /** `value[key].as_bool()`. */
  function BoolField(j: Json, key: string): (r: Option<bool>)
    ensures r.Some? <==> Field(j, key).Some? && Field(j, key).value.JBool?
  {
    match Field(j, key)
    case Some(JBool(b)) => Some(b)
    case _ => None
  }

  /** `Path::join` of a relative path onto a directory. */
  function JoinPath(dir: string, rel: string): (p: string)
    ensures EndsWith(p, rel)
  {
    if dir == [] then rel
    else if Last(dir) == '/' then dir + rel
    else dir + "/" + rel
  }

  /** Which platform's list an id was found in; the Android list is
    * always searched first. */
  datatype Route = OnAndroid | OnIos | NotFound

  newtype byte = x: int | 0 <= x < 256

  /** `order` lists every element of `s` exactly once: one possible
    * iteration order of a hash map or hash set whose keys are `s`. */
  predicate Enumerates<T(!new)>(order: seq<T>, s: set<T>)
  {
    (forall x | x in order :: x in s) && (forall x | x in s :: x in order)
    && (forall i, j :: 0 <= i < j < |order| ==> order[i] != order[j])
  }

  /** What one run of an external tool (adb, xcrun, emulator, ...) reported.
    * Every tool call of the system is an oracle that yields one of these. */
  datatype CmdOutput = CmdOutput(success: bool, stdout: string, stderr: string)

  // ---------------------------------------------------------------------
  // Characters

  /** Unicode White_Space, the set used by `char::is_whitespace`, `trim` and `split_whitespace`. */
  predicate IsWhitespace(c: char)
  {
    c == ' ' || ('\t' <= c <= '\r') || c == '\U{85}' || c == '\U{A0}' || c == '\U{1680}'
    || ('\U{2000}' <= c <= '\U{200A}') || c == '\U{2028}' || c == '\U{2029}'
    || c == '\U{202F}' || c == '\U{205F}' || c == '\U{3000}'
  }

  predicate IsAsciiDigit(c: char) { '0' <= c <= '9' }

  /** ASCII lower-casing; every other character maps to itself. */
  function LowerChar(c: char): (r: char)
    ensures 'A' <= c <= 'Z' ==> 'a' <= r <= 'z'
    ensures !('A' <= c <= 'Z') ==> r == c
  {
    if 'A' <= c <= 'Z' then (c as int + 32) as char else c
  }

  function ToLower(s: string): (r: string)
    ensures |r| == |s|
    ensures forall i :: 0 <= i < |s| ==> r[i] == LowerChar(s[i])
  {
    if s == [] then [] else [LowerChar(s[0])] + ToLower(s[1..])
  }

  /** Number of bytes of the UTF-8 encoding of `c`. */
  function Utf8Width(c: char): nat
  {
    if c as int < 0x80 then 1 else if c as int < 0x800 then 2 else if c as int < 0x10000 then 3 else 4
  }

  /** `str::len`: the length of the UTF-8 encoding, in bytes. */
  function Utf8Length(s: string): (n: nat)
    ensures n >= |s|
  {
    if s == [] then 0 else Utf8Width(s[0]) + Utf8Length(s[1..])
  }

  predicate IsAscii(s: string)
  {
    forall i :: 0 <= i < |s| ==> s[i] as int < 0x80
  }

  lemma {:induction false} AsciiUtf8Length(s: string)
    requires IsAscii(s)
    ensures Utf8Length(s) == |s|
  {
    if s != [] {
      AsciiUtf8Length(s[1..]);
    }
  }

  // ---------------------------------------------------------------------
  // Searching

  predicate StartsWith(s: string, prefix: string)
  {
    |prefix| <= |s| && s[..|prefix|] == prefix
  }

  predicate EndsWith(s: string, suffix: string)
  {
    |suffix| <= |s| && s[|s| - |suffix|..] == suffix
  }

  predicate OccursAt(s: string, sub: string, i: int)
  {
    0 <= i && i + |sub| <= |s| && s[i..i + |sub|] == sub
  }

  /** Index of the first occurrence of `sub` in `s` (`str::find`). */
  function IndexOf(s: string, sub: string): (r: Option<nat>)
    ensures r.Some? ==> OccursAt(s, sub, r.value)
    ensures r.Some? ==> forall j :: 0 <= j < r.value ==> !OccursAt(s, sub, j)
    ensures r.None? ==> forall j :: 0 <= j <= |s| ==> !OccursAt(s, sub, j)
  {
    if StartsWith(s, sub) then Some(0)
    else if |s| == 0 then None
    else
      var rest := IndexOf(s[1..], sub);
      OccursShifted(s, sub);
      match rest
      case None => None
      case Some(k) => Some(k + 1)
  }

  /** An occurrence past the first character is one in the rest. */
  lemma OccursShifted(s: string, sub: string)
    requires |s| > 0
    ensures forall j :: 1 <= j <= |s| ==> (OccursAt(s, sub, j) <==> OccursAt(s[1..], sub, j - 1))
  {
    forall j | 1 <= j <= |s|
      ensures OccursAt(s, sub, j) <==> OccursAt(s[1..], sub, j - 1)
    {
      if j + |sub| <= |s| {
        var a, b := s[j..j + |sub|], s[1..][j - 1..j - 1 + |sub|];
        assert forall k | 0 <= k < |sub| :: a[k] == s[j + k] == b[k];
        assert a == b;
      }
    }
  }

  /** `str::contains` */
  predicate Contains(s: string, sub: string)
  {
    IndexOf(s, sub).Some?
  }

  lemma ContainsAt(s: string, sub: string, i: int)
    requires OccursAt(s, sub, i)
    ensures Contains(s, sub)
  {
  }

  /** A string contains nothing longer than itself, and nothing else of its own length. */
  lemma NotContainsLonger(s: string, sub: string)
    requires |s| <= |sub| && s != sub
    ensures !Contains(s, sub)
  {
  }

  /** A text absent from two parts is absent from them joined at a
    * character it does not hold. */
  lemma NotContainsJoin(a: string, c: char, b: string, sub: string)
    requires c !in sub && !Contains(a, sub) && !Contains(b, sub)
    ensures !Contains(a + [c] + b, sub)
  {
    var s := a + [c] + b;
    if Contains(s, sub) {
      var i := IndexOf(s, sub).value;
      assert s[i..i + |sub|] == sub;
      if i + |sub| <= |a| {
        assert a[i..i + |sub|] == s[i..i + |sub|];
        ContainsAt(a, sub, i);
      } else if i > |a| {
        assert b[i - |a| - 1..i - |a| - 1 + |sub|] == s[i..i + |sub|];
        ContainsAt(b, sub, i - |a| - 1);
      } else {
        OccurrenceHolds(s, sub, i, |a|);
      }
      assert false;
    }
  }

  /** Every character inside an occurrence is a character of the text found. */
  lemma OccurrenceHolds(s: string, sub: string, i: nat, k: nat)
    requires OccursAt(s, sub, i) && i <= k < i + |sub|
    ensures s[k] in sub
  {
    assert s[k] == sub[k - i];
  }

  lemma ContainsItself(s: string)
    ensures Contains(s, s)
  {
    assert OccursAt(s, s, 0);
  }

  /** `str::find(char)` */
  function FindChar(s: string, c: char): (r: Option<nat>)
    ensures r.Some? ==> r.value < |s| && s[r.value] == c
    ensures r.Some? ==> forall j :: 0 <= j < r.value ==> s[j] != c
    ensures r.None? ==> forall j :: 0 <= j < |s| ==> s[j] != c
  {
    if |s| == 0 then None
    else if s[0] == c then Some(0)
    else match FindChar(s[1..], c)
      case None => None
      case Some(k) => Some(k + 1)
  }

  /** The first occurrence of `c` is the one `FindChar` reports. */
  lemma FindCharFirst(s: string, c: char, i: nat)
    requires i < |s| && s[i] == c
    requires forall j :: 0 <= j < i ==> s[j] != c
    ensures FindChar(s, c) == Some(i)
  {
    var r := FindChar(s, c);
    assert r.Some?;
    assert s[r.value] == c;
  }

  // ---------------------------------------------------------------------
  // Trimming and splitting

  function TrimStart(s: string): (r: string)
    ensures |r| <= |s| && r == s[|s| - |r|..]
    ensures r == [] || !IsWhitespace(r[0])
  {
    if |s| > 0 && IsWhitespace(s[0]) then TrimStart(s[1..]) else s
  }

  function TrimEnd(s: string): (r: string)
    ensures |r| <= |s| && r == s[..|r|]
    ensures r == [] || !IsWhitespace(r[|r| - 1])
  {
    if |s| > 0 && IsWhitespace(s[|s| - 1]) then TrimEnd(s[..|s| - 1]) else s
  }

  /** `str::trim` */
  function Trim(s: string): (r: string)
    ensures |r| <= |s|
    ensures r == [] || (!IsWhitespace(r[0]) && !IsWhitespace(r[|r| - 1]))
  {
    TrimEnd(TrimStart(s))
  }

  lemma {:induction false} TrimStartDropsWhitespace(s: string)
    ensures forall i | 0 <= i < |s| - |TrimStart(s)| :: IsWhitespace(s[i])
  {
    if |s| > 0 && IsWhitespace(s[0]) {
      TrimStartDropsWhitespace(s[1..]);
      assert forall i | 1 <= i < |s| :: s[1..][i - 1] == s[i];
    }
  }

  lemma {:induction false} TrimEndDropsWhitespace(s: string)
    ensures forall i | |TrimEnd(s)| <= i < |s| :: IsWhitespace(s[i])
  {
    if |s| > 0 && IsWhitespace(s[|s| - 1]) {
      TrimEndDropsWhitespace(s[..|s| - 1]);
    }
  }

  /** `Trim` keeps one contiguous slice of its input and drops only
    * whitespace around it. */
  lemma TrimSlice(s: string)
    ensures exists a, b :: 0 <= a <= b <= |s| && Trim(s) == s[a..b]
              && (forall i | 0 <= i < a :: IsWhitespace(s[i]))
              && (forall i | b <= i < |s| :: IsWhitespace(s[i]))
  {
    var t := TrimStart(s);
    var a := |s| - |t|;
    var b := a + |Trim(s)|;
    TrimStartDropsWhitespace(s);
    TrimEndDropsWhitespace(t);
    assert t == s[a..];
    assert Trim(s) == s[a..b];
    assert forall i | b <= i < |s| :: s[i] == t[i - a];
  }

  predicate NoWhitespace(s: string)
  {
    forall i :: 0 <= i < |s| ==> !IsWhitespace(s[i])
  }

  /** Length of the longest whitespace-free prefix of `s`. */
  function TokenLength(s: string): (n: nat)
    ensures n <= |s| && NoWhitespace(s[..n])
    ensures n < |s| ==> IsWhitespace(s[n])
  {
    if |s| == 0 || IsWhitespace(s[0]) then 0
    else
      var k := TokenLength(s[1..]);
      assert s[..k + 1] == [s[0]] + s[1..][..k];
      k + 1
  }

  /** `str::split_whitespace`: the maximal whitespace-free runs, in order. */
  function SplitWhitespace(s: string): (r: seq<string>)
    ensures forall t :: t in r ==> t != [] && NoWhitespace(t)
    decreases |s|
  {
    if |s| == 0 then []
    else if IsWhitespace(s[0]) then SplitWhitespace(s[1..])
    else
      var n := TokenLength(s);
      [s[..n]] + SplitWhitespace(s[n..])
  }

  /** A string with a non-whitespace character has a first token. */
  lemma {:induction false} SplitWhitespaceNonEmpty(s: string, i: nat)
    requires i < |s| && !IsWhitespace(s[i])
    ensures SplitWhitespace(s) != []
    decreases |s|
  {
    if IsWhitespace(s[0]) {
      SplitWhitespaceNonEmpty(s[1..], i - 1);
    }
  }

  lemma {:induction false} SplitWhitespaceOfBlank(s: string)
    requires forall i :: 0 <= i < |s| ==> IsWhitespace(s[i])
    ensures SplitWhitespace(s) == []
    decreases |s|
  {
    if |s| > 0 {
      SplitWhitespaceOfBlank(s[1..]);
    }
  }

  /** The token length is the length of any whitespace-free prefix that is
    * followed by whitespace or the end. */
  lemma {:induction false} TokenLengthIs(s: string, n: nat)
    requires n <= |s| && NoWhitespace(s[..n])
    requires n < |s| ==> IsWhitespace(s[n])
    ensures TokenLength(s) == n
  {
    if n > 0 {
      assert s[..n][0] == s[0];
      assert s[1..][..n - 1] == s[..n][1..];
      assert n - 1 < |s| - 1 ==> s[1..][n - 1] == s[n];
      TokenLengthIs(s[1..], n - 1);
    }
  }

  /** A whitespace-free, non-empty string is one token. */
  lemma SplitWhitespaceToken(t: string)
    requires t != [] && NoWhitespace(t)
    ensures SplitWhitespace(t) == [t]
  {
    assert t[..|t|] == t;
    TokenLengthIs(t, |t|);
  }

  /** A leading whitespace character is skipped. */
  lemma SplitWhitespaceSkip(a: string, b: string)
    requires a != [] && IsWhitespace(a[0])
    ensures SplitWhitespace(a + b) == SplitWhitespace(a[1..] + b)
  {
    assert (a + b)[1..] == a[1..] + b;
  }

  /** A leading token ending inside `a`, or where `b` starts with
    * whitespace, is the first token of `a + b`. */
  lemma SplitWhitespaceTake(a: string, b: string, n: nat)
    requires a != [] && !IsWhitespace(a[0]) && n == TokenLength(a)
    requires n < |a| || b == [] || IsWhitespace(b[0])
    ensures 0 < n && SplitWhitespace(a + b) == [a[..n]] + SplitWhitespace(a[n..] + b)
  {
    var s := a + b;
    assert 0 < n by {
      assert TokenLength(a) == TokenLength(a[1..]) + 1;
    }
    SlicesOfConcat(a, b, n);
    assert n < |s| ==> IsWhitespace(s[n]) by {
      if n < |a| {
        assert s[n] == a[n];
      } else if b != [] {
        assert s[n] == b[0];
      }
    }
    TokenLengthIs(s, n);
    assert s[0] == a[0];
  }

  lemma ConcatAssociates<T>(x: seq<T>, y: seq<T>, z: seq<T>)
    ensures x + (y + z) == (x + y) + z
  {
  }

  /** Slicing a concatenation inside its first part. */
  lemma SlicesOfConcat<T>(a: seq<T>, b: seq<T>, n: nat)
    requires n <= |a|
    ensures (a + b)[..n] == a[..n] && (a + b)[n..] == a[n..] + b
  {
  }

  /** Tokens are taken in order: splitting a concatenation splits each part,
    * provided the two parts do not run together into one token. */
  lemma {:induction false} SplitWhitespaceConcat(a: string, b: string)
    requires a == [] || b == [] || IsWhitespace(Last(a)) || IsWhitespace(b[0])
    ensures SplitWhitespace(a + b) == SplitWhitespace(a) + SplitWhitespace(b)
    decreases |a|
  {
    if a == [] {
      assert a + b == b;
    } else if IsWhitespace(a[0]) {
      SplitWhitespaceSkip(a, b);
      assert |a| > 1 ==> Last(a[1..]) == Last(a);
      SplitWhitespaceConcat(a[1..], b);
    } else {
      var n := TokenLength(a);
      assert n == |a| ==> !IsWhitespace(Last(a)) by {
        if n == |a| {
          assert a[..n][n - 1] == Last(a);
        }
      }
      SplitWhitespaceTake(a, b, n);
      assert n < |a| ==> Last(a[n..]) == Last(a);
      var token, rest := a[..n], SplitWhitespace(a[n..]);
      calc {
        SplitWhitespace(a + b);
        [token] + SplitWhitespace(a[n..] + b);
        { SplitWhitespaceConcat(a[n..], b); }
        [token] + (rest + SplitWhitespace(b));
        { ConcatAssociates([token], rest, SplitWhitespace(b)); }
        ([token] + rest) + SplitWhitespace(b);
        SplitWhitespace(a) + SplitWhitespace(b);
      }
    }
  }

  function StripCarriageReturn(line: string): string
  {
    if |line| > 0 && line[|line| - 1] == '\r' then line[..|line| - 1] else line
  }

  /** `str::lines`: split at "\n" (or "\r\n"); a final line terminator
    * does not start an extra empty line. A '\r' is dropped only before a
    * '\n', so an unterminated last line is kept as it is. */
  function Lines(s: string): (r: seq<string>)
    ensures s == [] <==> r == []
    decreases |s|
  {
    if |s| == 0 then []
    else match FindChar(s, '\n')
      case None => [s]
      case Some(i) => [StripCarriageReturn(s[..i])] + Lines(s[i + 1..])
  }

  /** A line ended by "\r\n" loses both characters. */
  lemma LinesDropsCarriageReturn(line: string, rest: string)
    requires '\n' !in line
    ensures Lines(line + "\r\n" + rest) == [line] + Lines(rest)
  {
    var s := line + "\r\n" + rest;
    assert forall j | 0 <= j < |line| :: s[j] == line[j];
    FindCharFirst(s, '\n', |line| + 1);
    assert s[..|line| + 1] == line + "\r";
    assert s[|line| + 2..] == rest;
  }

  /** An unterminated last line keeps a final '\r': it is dropped only
    * before a '\n'. */
  lemma LinesKeepsUnterminatedLine(line: string)
    requires line != [] && '\n' !in line
    ensures Lines(line) == [line]
  {
    FindCharAbsent(line, '\n');
  }

  /** `str::split(char)`: the pieces between the separators; never empty. */
  function Split(s: string, sep: char): (r: seq<string>)
    ensures |r| >= 1
    decreases |s|
  {
    match FindChar(s, sep)
    case None => [s]
    case Some(i) => [s[..i]] + Split(s[i + 1..], sep)
  }

  /** `slice.join(sep)` */
  function Join(parts: seq<string>, sep: char): (r: string)
    ensures parts == [] ==> r == []
  {
    if parts == [] then []
    else if |parts| == 1 then parts[0]
    else parts[0] + [sep] + Join(parts[1..], sep)
  }

  /** A separator-free head is the first piece. */
  lemma SplitFirst(head: string, sep: char, tail: string)
    requires sep !in head
    ensures Split(head + [sep] + tail, sep) == [head] + Split(tail, sep)
  {
    var s := head + [sep] + tail;
    FindCharFirst(s, sep, |head|);
    assert s[..|head|] == head && s[|head| + 1..] == tail;
  }

  /** The pieces hold no separator ... */
  lemma {:induction false} SplitPiecesFree(s: string, sep: char)
    ensures forall p | p in Split(s, sep) :: sep !in p
    decreases |s|
  {
    var f := FindChar(s, sep);
    if f.Some? {
      var i := f.value;
      SplitPiecesFree(s[i + 1..], sep);
      assert Split(s, sep) == [s[..i]] + Split(s[i + 1..], sep);
    }
  }

  /** ... and joining them with it gives the string back. */
  lemma {:induction false} SplitJoinsBack(s: string, sep: char)
    ensures Join(Split(s, sep), sep) == s
    decreases |s|
  {
    var f := FindChar(s, sep);
    if f.Some? {
      var i := f.value;
      var rest := s[i + 1..];
      var pieces := Split(rest, sep);
      SplitJoinsBack(rest, sep);
      var all := [s[..i]] + pieces;
      assert Split(s, sep) == all;
      assert |all| > 1 && all[0] == s[..i] && all[1..] == pieces;
      assert Join(all, sep) == s[..i] + [sep] + rest;
      assert s == s[..i] + [sep] + rest;
    }
  }

  /** Splitting the joined pieces gives them back, as long as none of them
    * holds the separator. */
  lemma {:induction false} JoinSplitsBack(parts: seq<string>, sep: char)
    requires parts != []
    requires forall i | 0 <= i < |parts| :: sep !in parts[i]
    ensures Split(Join(parts, sep), sep) == parts
  {
    var head := parts[0];
    assert sep !in head;
    if |parts| == 1 {
      FindCharAbsent(head, sep);
    } else {
      var tail := Join(parts[1..], sep);
      assert Join(parts, sep) == head + [sep] + tail;
      SplitFirst(head, sep, tail);
      assert forall i | 0 <= i < |parts[1..]| :: parts[1..][i] == parts[i + 1];
      JoinSplitsBack(parts[1..], sep);
      assert parts == [head] + parts[1..];
    }
  }

  /** Without carriage returns, `Lines` is `Split` at a newline once a final
    * line terminator is dropped. */
  lemma {:induction false} LinesAsSplit(s: string)
    requires '\r' !in s
    ensures Lines(s) == if s == [] then []
                        else if Last(s) == '\n' then Split(s[..|s| - 1], '\n')
                        else Split(s, '\n')
    decreases |s|
  {
    if s != [] {
      match FindChar(s, '\n')
      case None =>
        assert s[|s| - 1] in s;
        assert Lines(s) == [s];
      case Some(i) =>
        var head, rest := s[..i], s[i + 1..];
        assert i > 0 ==> head[i - 1] == s[i - 1];
        assert StripCarriageReturn(head) == head;
        assert Lines(s) == [head] + Lines(rest);
        if rest == [] {
          FindCharAbsent(head, '\n');
          assert s[..|s| - 1] == head;
        } else {
          LinesIfRest(s, i);
        }
    }
  }

  /** The step of `LinesAsSplit` past a newline that is not the last
    * character. */
  lemma {:induction false} LinesIfRest(s: string, i: nat)
    requires '\r' !in s && i + 1 < |s| && FindChar(s, '\n') == Some(i)
    requires Lines(s) == [s[..i]] + Lines(s[i + 1..])
    ensures Lines(s) == if Last(s) == '\n' then Split(s[..|s| - 1], '\n') else Split(s, '\n')
    decreases |s|, 0
  {
    var rest := s[i + 1..];
    NotInSuffix(s, '\r', i + 1);
    LinesAsSplit(rest);
    assert Last(rest) == Last(s);
    if Last(s) == '\n' {
      LinesBeforeLast(s, i);
    } else {
      LinesBeforeOther(s, i);
    }
  }

  lemma NotInSuffix(s: string, c: char, k: nat)
    requires c !in s && k <= |s|
    ensures c !in s[k..]
  {
    assert forall j | 0 <= j < |s| - k :: s[k..][j] == s[k + j];
  }

  lemma LinesBeforeOther(s: string, i: nat)
    requires i + 1 < |s| && FindChar(s, '\n') == Some(i)
    requires Lines(s) == [s[..i]] + Lines(s[i + 1..])
    requires Lines(s[i + 1..]) == Split(s[i + 1..], '\n')
    ensures Lines(s) == Split(s, '\n')
  {
    SplitAt(s, '\n', i);
  }

  lemma LinesBeforeLast(s: string, i: nat)
    requires i + 1 < |s| && FindChar(s, '\n') == Some(i) && Last(s) == '\n'
    requires Lines(s) == [s[..i]] + Lines(s[i + 1..])
    requires Lines(s[i + 1..]) == Split(s[i + 1..][..|s| - i - 2], '\n')
    ensures Lines(s) == Split(s[..|s| - 1], '\n')
  {
    assert s[i + 1..][..|s| - i - 2] == s[i + 1..|s| - 1];
    SplitBeforeLast(s, i);
  }

  /** When `s` ends in a newline and its first newline `i` is not the last
    * character, `Split` of `s` without that end starts with `s[..i]`. */
  lemma SplitBeforeLast(s: string, i: nat)
    requires i + 1 < |s| && FindChar(s, '\n') == Some(i)
    ensures Split(s[..|s| - 1], '\n') == [s[..i]] + Split(s[i + 1..|s| - 1], '\n')
  {
    var u := s[..|s| - 1];
    FindCharFirst(u, '\n', i);
    SplitAt(u, '\n', i);
    assert u[..i] == s[..i] && u[i + 1..] == s[i + 1..|s| - 1];
  }

  /** Unfolds `Split` at the separator `FindChar` reports. */
  lemma SplitAt(s: string, sep: char, i: nat)
    requires FindChar(s, sep) == Some(i)
    ensures Split(s, sep) == [s[..i]] + Split(s[i + 1..], sep)
  {
  }

  /** `str::replace(pat, rep)`: non-overlapping occurrences, leftmost first. */
  function ReplaceAll(s: string, pat: string, rep: string): (r: string)
    requires pat != []
    decreases |s|
  {
    if |s| < |pat| then s
    else if s[..|pat|] == pat then rep + ReplaceAll(s[|pat|..], pat, rep)
    else [s[0]] + ReplaceAll(s[1..], pat, rep)
  }

  lemma {:induction false} ReplaceAllAbsent(s: string, pat: string, rep: string)
    requires pat != []
    requires !Contains(s, pat)
    ensures ReplaceAll(s, pat, rep) == s
    decreases |s|
  {
    if |s| >= |pat| {
      assert !OccursAt(s, pat, 0);
      ReplaceAllAbsent(s[1..], pat, rep);
    }
  }

  /** Replacing a one-character pattern is a character-wise substitution. */
  lemma {:induction false} ReplaceAllOneChar(s: string, c: char, d: char)
    ensures ReplaceAll(s, [c], [d]) == ReplaceChar(s, c, d)
    decreases |s|
  {
    if s != [] {
      ReplaceAllOneChar(s[1..], c, d);
    }
  }

  /** An occurrence at the very start is replaced first. */
  lemma ReplaceAllLeading(pat: string, rest: string, rep: string)
    requires pat != []
    ensures ReplaceAll(pat + rest, pat, rep) == rep + ReplaceAll(rest, pat, rep)
  {
    assert (pat + rest)[..|pat|] == pat;
    assert (pat + rest)[|pat|..] == rest;
  }

  /** `str::replace(char, char)` */
  function ReplaceChar(s: string, from: char, to: char): (r: string)
    ensures |r| == |s|
    ensures forall i :: 0 <= i < |s| ==> r[i] == (if s[i] == from then to else s[i])
  {
    if s == [] then [] else [if s[0] == from then to else s[0]] + ReplaceChar(s[1..], from, to)
  }

  function Last<T>(s: seq<T>): T
    requires s != []
  {
    s[|s| - 1]
  }

  /** `str::trim_start_matches(c)`: drop every leading `c`. */
  function TrimStartMatches(s: string, c: char): (r: string)
    ensures |r| <= |s| && r == s[|s| - |r|..]
    ensures r == [] || r[0] != c
  {
    if |s| > 0 && s[0] == c then TrimStartMatches(s[1..], c) else s
  }

  /** What `trim_start_matches` drops is all `c`. */
  lemma {:induction false} TrimStartMatchesDrops(s: string, c: char)
    ensures forall j | 0 <= j < |s| - |TrimStartMatches(s, c)| :: s[j] == c
    decreases |s|
  {
    if |s| > 0 && s[0] == c {
      TrimStartMatchesDrops(s[1..], c);
      assert forall j | 1 <= j < |s| :: s[j] == s[1..][j - 1];
    }
  }

  /** `str::trim_end_matches(c)`: drop every trailing `c`. */
  function TrimEndMatches(s: string, c: char): (r: string)
    ensures |r| <= |s| && r == s[..|r|]
    ensures r == [] || r[|r| - 1] != c
  {
    if |s| > 0 && s[|s| - 1] == c then TrimEndMatches(s[..|s| - 1], c) else s
  }

  /** What `trim_end_matches` drops is all `c`. */
  lemma {:induction false} TrimEndMatchesDrops(s: string, c: char)
    ensures forall j | |TrimEndMatches(s, c)| <= j < |s| :: s[j] == c
    decreases |s|
  {
    if |s| > 0 && s[|s| - 1] == c {
      TrimEndMatchesDrops(s[..|s| - 1], c);
    }
  }

  /** `iter().filter_map(..)` over precomputed outcomes: the present values, in order. */
  function Somes<T>(s: seq<Option<T>>): (r: seq<T>)
    ensures |r| <= |s|
  {
    if s == [] then [] else Somes(s[..|s| - 1]) + (if Last(s).Some? then [Last(s).value] else [])
  }

  /** Every value kept by `Somes` was present in the input, and vice versa. */
  lemma {:induction false} SomesMembers<T>(s: seq<Option<T>>, x: T)
    ensures x in Somes(s) <==> Some(x) in s
  {
    if s != [] {
      SomesMembers(s[..|s| - 1], x);
      assert s == s[..|s| - 1] + [Last(s)];
    }
  }

  /** `Somes` of a longer prefix: one more outcome considered. */
  lemma SomesPrefix<T>(s: seq<Option<T>>, i: nat)
    requires i < |s|
    ensures Somes(s[..i + 1]) == Somes(s[..i]) + (if s[i].Some? then [s[i].value] else [])
  {
    assert s[..i + 1][..i] == s[..i];
  }

  /** `Somes` keeps the order of its input: it distributes over
    * concatenation ... */
  lemma {:induction false} SomesConcat<T>(a: seq<Option<T>>, b: seq<Option<T>>)
    ensures Somes(a + b) == Somes(a) + Somes(b)
    decreases |b|
  {
    if b == [] {
      assert a + b == a;
    } else {
      var init, o := b[..|b| - 1], Last(b);
      assert (a + b)[..|a + b| - 1] == a + init;
      var kept := if o.Some? then [o.value] else [];
      calc {
        Somes(a + b);
        Somes(a + init) + kept;
        { SomesConcat(a, init); }
        (Somes(a) + Somes(init)) + kept;
        { ConcatAssociates(Somes(a), Somes(init), kept); }
        Somes(a) + Somes(b);
      }
    }
  }

  /** ... and keeps exactly the present value of a single outcome. */
  lemma SomesSingle<T>(o: Option<T>)
    ensures Somes([o]) == if o.Some? then [o.value] else []
  {
    assert [o][..0] == [];
  }

  // ---------------------------------------------------------------------
  // Paths

  /** `Path::file_name` over the normal components of a path: the last one,
    * unless there is none or it is "..". */
  function FileNameOf(components: seq<string>): (r: Option<string>)
    ensures r.Some? <==> components != [] && Last(components) != ".."
    ensures r.Some? ==> r.value == Last(components)
  {
    if components == [] || Last(components) == ".." then None else Some(Last(components))
  }

  /** The extension `Path::extension` finds in a file name: what follows
    * its last dot, unless there is no dot or the only dot starts the name
    * (a hidden file). */
  predicate ExtensionAt(name: string, ext: string)
  {
    |ext| + 2 <= |name| && name[|name| - |ext| - 1] == '.' && ext == name[|name| - |ext|..]
    && forall i | 0 <= i < |ext| :: ext[i] != '.'
  }

  /** `Path::extension` of a file name. */
  function NameExtension(name: string): (r: Option<string>)
    ensures r.Some? ==> ExtensionAt(name, r.value)
    ensures r.None? ==> name == ".." || forall j | 1 <= j < |name| :: name[j] != '.'
  {
    if name == ".." then None else LastDotExtension(name, |name|)
  }

  /** The extension found scanning back from `i`, past which there is no dot. */
  function LastDotExtension(name: string, i: nat): (r: Option<string>)
    requires i <= |name|
    requires forall j | i <= j < |name| :: name[j] != '.'
    ensures r.Some? ==> ExtensionAt(name, r.value)
    ensures r.None? ==> forall j | 1 <= j < |name| :: name[j] != '.'
  {
    if i == 0 then None
    else if name[i - 1] == '.' then
      if i - 1 == 0 then None
      else Some(name[i..])
    else LastDotExtension(name, i - 1)
  }

  // ---------------------------------------------------------------------
  // Numbers

  function DigitValue(c: char): nat
    requires IsAsciiDigit(c)
  {
    c as int - '0' as int
  }

  predicate AllDigits(s: string)
  {
    forall i :: 0 <= i < |s| ==> IsAsciiDigit(s[i])
  }

  /** Value of a string of ASCII digits. */
  function DigitsValue(s: string): nat
    requires AllDigits(s)
  {
    if s == [] then 0 else DigitsValue(s[..|s| - 1]) * 10 + DigitValue(s[|s| - 1])
  }

  const I32_MIN: int := -0x8000_0000
  const I32_MAX: int := 0x7FFF_FFFF

  predicate InI32(n: int) { I32_MIN <= n <= I32_MAX }

  /** `str::parse::<i32>`: an optional sign, then at least one ASCII digit, in range. */
  function ParseI32(s: string): (r: Option<int>)
    ensures r.Some? ==> InI32(r.value)
  {
    var neg := |s| > 0 && s[0] == '-';
    var digits := if |s| > 0 && (s[0] == '-' || s[0] == '+') then s[1..] else s;
    if digits == [] || !AllDigits(digits) then None
    else
      var v: int := if neg then 0 - (DigitsValue(digits) as int) else DigitsValue(digits);
      if InI32(v) then Some(v) else None
  }

  predicate IsSign(sign: string)
  {
    sign == "" || sign == "+" || sign == "-"
  }

  /** The value of an optional sign followed by digits. */
  function SignedValue(sign: string, digits: string): int
    requires AllDigits(digits)
  {
    if sign == "-" then 0 - (DigitsValue(digits) as int) else DigitsValue(digits)
  }

  /** An optional sign and at least one digit parse to their value when it
    * fits in 32 bits, and to nothing otherwise ... */
  lemma ParseI32Literal(sign: string, digits: string)
    requires IsSign(sign) && digits != [] && AllDigits(digits)
    ensures ParseI32(sign + digits) ==
              if InI32(SignedValue(sign, digits)) then Some(SignedValue(sign, digits)) else None
  {
    var s := sign + digits;
    if sign == "" {
      assert s == digits && IsAsciiDigit(s[0]);
    } else {
      assert s[1..] == digits;
    }
  }

  /** ... and nothing else parses. */
  lemma ParseI32OnlyLiterals(s: string)
    requires ParseI32(s).Some?
    ensures exists sign, digits | IsSign(sign) && digits != [] && AllDigits(digits) :: s == sign + digits
  {
    if |s| > 0 && (s[0] == '-' || s[0] == '+') {
      assert s == s[..1] + s[1..];
    } else {
      assert s == "" + s;
    }
  }

  function DigitChar(d: nat): char
    requires d < 10
  {
    ('0' as int + d) as char
  }

  /** Decimal rendering of a natural number, as `format!("{}")` prints it. */
  function NatToString(n: nat): (r: string)
    ensures r != [] && AllDigits(r)
  {
    if n < 10 then [DigitChar(n)]
    else NatToString(n / 10) + [DigitChar(n % 10)]
  }

  /** The digits of `n` have the value `n`. */
  lemma {:induction false} NatToStringValue(n: nat)
    ensures DigitsValue(NatToString(n)) == n
  {
    if n >= 10 {
      NatToStringValue(n / 10);
      var r := NatToString(n);
      assert r[..|r| - 1] == NatToString(n / 10);
    }
  }

  function IntToString(n: int): string
  {
    if n < 0 then "-" + NatToString(0 - n) else NatToString(n)
  }

  lemma TrimUnchanged(s: string)
    requires s == [] || (!IsWhitespace(s[0]) && !IsWhitespace(s[|s| - 1]))
    ensures Trim(s) == s
  {
  }

  lemma ParseNatToString(n: nat)
    requires n <= I32_MAX
    ensures ParseI32(NatToString(n)) == Some(n)
  {
    var d := NatToString(n);
    NatToStringValue(n);
    assert IsAsciiDigit(d[0]);
  }

  lemma ParseNegatedNatToString(n: nat)
    requires 0 < n <= -I32_MIN
    ensures ParseI32("-" + NatToString(n)) == Some(0 - n)
  {
    var d := NatToString(n);
    NatToStringValue(n);
    var s := "-" + d;
    assert s[0] == '-' && s[1..] == d;
  }

  lemma IntToStringShape(x: int)
    ensures IntToString(x) != []
    ensures !IsWhitespace(IntToString(x)[0]) && !IsWhitespace(Last(IntToString(x)))
    ensures forall i :: 0 <= i < |IntToString(x)| ==> IntToString(x)[i] == '-' || IsAsciiDigit(IntToString(x)[i])
  {
    var d := NatToString(if x < 0 then 0 - x else x);
    assert IsAsciiDigit(d[0]) && IsAsciiDigit(Last(d));
    if x < 0 {
      assert IntToString(x) == "-" + d;
    }
  }

  lemma ParseIntToString(x: int)
    requires InI32(x)
    ensures ParseI32(IntToString(x)) == Some(x)
  {
    if x < 0 {
      ParseNegatedNatToString(0 - x);
    } else {
      ParseNatToString(x);
    }
  }

  lemma {:induction false} FindCharAbsent(s: string, c: char)
    requires forall i :: 0 <= i < |s| ==> s[i] != c
    ensures FindChar(s, c).None?
  {
    if s != [] {
      FindCharAbsent(s[1..], c);
    }
  }
}
