/** The helper script src/getopcodes.py: it reads the lines of opcodes.rs,
    keeps the `OpCode::new(...)` lines, groups the first argument of each
    (the opcode value) under its second argument (the mnemonic field, as
    written, with its leading space and quotes), and prints one
    `match`-arm skeleton per group: a `// NAME` comment, the values joined
    by ` | ` and ` => {},`, then a blank line.

    The file's lines are the input; what the script prints is the output
    string.  A line with fewer than two fields raises `IndexError` inside
    the first loop, so nothing is printed: the run is an `Err`. */
module GetOpcodes {
  import opened Outcomes

  const Prefix: string := "OpCode::new"
  const IndexError: string := "list index out of range"

  // ---------------------------------------------------------------------
  // Python's `str.strip`

  /** `str.isspace`: the characters Python 3 treats as whitespace. */
  predicate IsSpace(c: char) {
    || '\t' <= c <= '\r' || '\U{1C}' <= c <= '\U{1F}' || c == ' ' || c == '\U{85}' || c == '\U{A0}'
    || c == '\U{1680}' || '\U{2000}' <= c <= '\U{200A}' || c == '\U{2028}' || c == '\U{2029}'
    || c == '\U{202F}' || c == '\U{205F}' || c == '\U{3000}'
  }

  /** The characters of `key.strip("  \"\"")`: space and double quote. */
  predicate IsQuoteOrSpace(c: char) {
    c == ' ' || c == '"'
  }

  /** `s` without its leading characters that satisfy `drop`. */
  function StripLeft(s: string, drop: char -> bool): (r: string)
    ensures |r| <= |s| && r == s[|s| - |r|..]
    ensures forall i :: 0 <= i < |s| - |r| ==> drop(s[i])
    ensures |r| > 0 ==> !drop(r[0])
    decreases |s|
  {
    if |s| > 0 && drop(s[0]) then StripLeft(s[1..], drop) else s
  }

  /** `s` without its trailing characters that satisfy `drop`. */
  function StripRight(s: string, drop: char -> bool): (r: string)
    ensures |r| <= |s| && r == s[..|r|]
    ensures forall i :: |r| <= i < |s| ==> drop(s[i])
    ensures |r| > 0 ==> !drop(r[|r| - 1])
    decreases |s|
  {
    if |s| > 0 && drop(s[|s| - 1]) then StripRight(s[..|s| - 1], drop) else s
  }

  /** `str.strip`: both ends trimmed. */
  function Strip(s: string, drop: char -> bool): string {
    StripRight(StripLeft(s, drop), drop)
  }

  /** What `strip` leaves is a slice of the input, and everything cut
      off on either side is dropped characters. */
  lemma {:induction false} StripSlice(s: string, drop: char -> bool)
    ensures var r, k := Strip(s, drop), |s| - |StripLeft(s, drop)|;
            && k + |r| <= |s| && r == s[k..k + |r|]
            && (forall i :: 0 <= i < k ==> drop(s[i]))
            && (forall i :: k + |r| <= i < |s| ==> drop(s[i]))
  {
    var l := StripLeft(s, drop);
    var r := StripRight(l, drop);
    var k := |s| - |l|;
    PrefixOfSuffix(s, k, r);
    DroppedSuffix(s, k, |r|, drop);
  }

  /** A prefix of `s[k..]` is a slice of `s`. */
  lemma PrefixOfSuffix(s: string, k: nat, r: string)
    requires k <= |s| && |r| <= |s| - k && r == s[k..][..|r|]
    ensures r == s[k..k + |r|]
  {
  }

  /** Dropped characters at the end of `s[k..]` are dropped characters at
      the end of `s`. */
  lemma DroppedSuffix(s: string, k: nat, n: nat, drop: char -> bool)
    requires k <= |s|
    requires forall j :: n <= j < |s| - k ==> drop(s[k..][j])
    ensures forall i :: k + n <= i < |s| ==> drop(s[i])
  {
    forall i | k + n <= i < |s|
      ensures drop(s[i])
    {
      assert s[k..][i - k] == s[i];
    }
  }

  /** The first and last characters `strip` leaves are kept ones. */
  lemma StripEnds(s: string, drop: char -> bool)
    ensures var r := Strip(s, drop); |r| > 0 ==> !drop(r[0]) && !drop(r[|r| - 1])
  {
    var l := StripLeft(s, drop);
    var r := StripRight(l, drop);
    if |r| > 0 {
      PrefixHead(l, r);
    }
  }

  lemma PrefixHead(l: string, r: string)
    requires 0 < |r| <= |l| && r == l[..|r|]
    ensures r[0] == l[0]
  {
  }

  /** Stripping twice is stripping once. */
  lemma StripIdempotent(s: string, drop: char -> bool)
    ensures Strip(Strip(s, drop), drop) == Strip(s, drop)
  {
    var r := Strip(s, drop);
    StripEnds(s, drop);
    if |r| > 0 {
      assert StripLeft(r, drop) == r;
      assert StripRight(r, drop) == r;
    }
  }

  // ---------------------------------------------------------------------
  // `str.split(",")` and `str.join`

  /** `s.split(sep)`: the pieces between separators, empty ones included. */
  function Split(s: string, sep: char): (r: seq<string>)
    ensures |r| >= 1
    decreases |s|
  {
    if |s| == 0 then [""]
    else if s[0] == sep then [""] + Split(s[1..], sep)
    else var rest := Split(s[1..], sep); [[s[0]] + rest[0]] + rest[1..]
  }

  /** `sep.join(parts)`. */
  function Join(parts: seq<string>, sep: string): string
    decreases |parts|
  {
    if |parts| == 0 then ""
    else if |parts| == 1 then parts[0]
    else parts[0] + sep + Join(parts[1..], sep)
  }

  /** The number of occurrences of `c` in `s`. */
  function Count(s: string, c: char): nat {
    if |s| == 0 then 0 else (if s[0] == c then 1 else 0) + Count(s[1..], c)
  }

  /** Splitting makes one more piece than there are separators, no piece
      holds a separator, and joining the pieces with the separator gives
      the string back. */
  lemma SplitJoin(s: string, sep: char)
    ensures |Split(s, sep)| == Count(s, sep) + 1
    ensures forall i, j :: 0 <= i < |Split(s, sep)| && 0 <= j < |Split(s, sep)[i]| ==> Split(s, sep)[i][j] != sep
    ensures Join(Split(s, sep), [sep]) == s
  {
    SplitCount(s, sep);
    SplitPieces(s, sep);
    SplitJoinBack(s, sep);
  }

  lemma {:induction false} SplitCount(s: string, sep: char)
    ensures |Split(s, sep)| == Count(s, sep) + 1
    decreases |s|
  {
    if |s| > 0 {
      SplitCount(s[1..], sep);
    }
  }

  lemma {:induction false} SplitPieces(s: string, sep: char)
    ensures forall i, j :: 0 <= i < |Split(s, sep)| && 0 <= j < |Split(s, sep)[i]| ==> Split(s, sep)[i][j] != sep
    decreases |s|
  {
    if |s| > 0 {
      var rest := Split(s[1..], sep);
      SplitPieces(s[1..], sep);
      var parts := Split(s, sep);
      if s[0] == sep {
        assert parts == [""] + rest;
        assert forall i :: 1 <= i < |parts| ==> parts[i] == rest[i - 1];
      } else {
        assert parts == [[s[0]] + rest[0]] + rest[1..];
        forall i, j | 0 <= i < |parts| && 0 <= j < |parts[i]|
          ensures parts[i][j] != sep
        {
          if i == 0 && j > 0 {
            assert parts[0][j] == rest[0][j - 1];
          } else if i > 0 {
            assert parts[i] == rest[i];
          }
        }
      }
    }
  }

  lemma {:induction false} SplitJoinBack(s: string, sep: char)
    ensures Join(Split(s, sep), [sep]) == s
    decreases |s|
  {
    if |s| > 0 {
      var rest := Split(s[1..], sep);
      SplitJoinBack(s[1..], sep);
      assert s == [s[0]] + s[1..];
      var parts := Split(s, sep);
      if s[0] == sep {
        assert parts == [""] + rest;
        assert parts[1..] == rest;
      } else {
        assert parts == [[s[0]] + rest[0]] + rest[1..];
        if |rest| == 1 {
          assert Join(parts, [sep]) == [s[0]] + rest[0];
        } else {
          assert parts[1..] == rest[1..];
          assert Join(rest, [sep]) == rest[0] + [sep] + Join(rest[1..], [sep]);
        }
      }
    }
  }

  // ---------------------------------------------------------------------
  // The first loop: filter, split and group

  /** One contributing line: field 0 (the value) and field 1 (the key). */
  datatype Entry = Entry(value: string, key: string)

  /** `s[0:len("OpCode::new")] == "OpCode::new"` on the stripped line. */
  predicate Selected(t: string) {
    |t| >= |Prefix| && t[..|Prefix|] == Prefix
  }

  /** `s[len("OpCode::new("):]`: the text after the opening parenthesis
      (empty when the line is shorter). */
  function Arguments(t: string): (r: string)
    ensures |t| >= |Prefix| + 1 ==> t == t[..|Prefix| + 1] + r
    ensures |t| <= |Prefix| + 1 ==> r == ""
  {
    if |t| >= |Prefix| + 1 then t[|Prefix| + 1..] else ""
  }

  /** One iteration of the first loop on line `s`: nothing for a line that
      is not an `OpCode::new`, the entry for one that is, and the
      `IndexError` for one whose arguments hold no comma. */
  function ParseLine(s: string): (r: Result<Option<Entry>>)
    ensures r.Err? ==> r == Err(IndexError)
  {
    var t := Strip(s, IsSpace);
    if !Selected(t) then Ok(None)
    else
      var fields := Split(Arguments(t), ',');
      if |fields| < 2 then Err(IndexError) else Ok(Some(Entry(fields[0], fields[1])))
  }

  /** A line contributes exactly when its stripped text starts with
      `OpCode::new`; it fails exactly when its arguments hold no comma;
      otherwise its value and key are the text before the first comma and
      the text between the first two. */
  lemma ParseLineMeaning(s: string)
    ensures var r, t := ParseLine(s), Strip(s, IsSpace);
            && (r == Ok(None) <==> !Selected(t))
            && (r.Err? <==> Selected(t) && ',' !in Arguments(t))
            && (r.Ok? && r.value.Some? ==>
                  && ',' !in r.value.value.value && ',' !in r.value.value.key
                  && exists rest :: Arguments(t) == r.value.value.value + "," + r.value.value.key + rest)
  {
    SplitFields(Arguments(Strip(s, IsSpace)));
  }

  /** The fields of the argument text: two or more exactly when it holds a
      comma, and then the text starts with the first two and a comma
      between them. */
  lemma SplitFields(a: string)
    ensures var fields := Split(a, ',');
            && (|fields| >= 2 <==> ',' in a)
            && (|fields| >= 2 ==> ',' !in fields[0] && ',' !in fields[1]
                                  && exists rest :: a == fields[0] + "," + fields[1] + rest)
  {
    var fields := Split(a, ',');
    SplitJoin(a, ',');
    CountMember(a, ',');
    if |fields| >= 2 {
      assert forall j :: 0 <= j < |fields[0]| ==> fields[0][j] != ',';
      assert forall j :: 0 <= j < |fields[1]| ==> fields[1][j] != ',';
      JoinPrefix(fields, ",");
    }
  }

  lemma {:induction false} CountMember(s: string, c: char)
    ensures Count(s, c) > 0 <==> c in s
    decreases |s|
  {
    if |s| > 0 {
      CountMember(s[1..], c);
      assert c in s <==> s[0] == c || c in s[1..];
    }
  }

  lemma JoinPrefix(parts: seq<string>, sep: string)
    requires |parts| >= 2
    ensures exists rest :: Join(parts, sep) == parts[0] + sep + parts[1] + rest
  {
    if |parts| == 2 {
      assert Join(parts, sep) == parts[0] + sep + parts[1] + "";
    } else {
      var rest := sep + Join(parts[2..], sep);
      assert Join(parts[1..], sep) == parts[1] + rest;
      assert Join(parts, sep) == parts[0] + sep + parts[1] + rest;
    }
  }

  /** The entries of the contributing lines, in file order, or the
      `IndexError` of the first line that has fewer than two fields. */
  function Entries(lines: seq<string>): (r: Result<seq<Entry>>)
    ensures r.Ok? ==> |r.value| <= |lines|
    ensures r.Err? ==> r == Err(IndexError)
    decreases |lines|
  {
    if |lines| == 0 then Ok([])
    else
      match Entries(lines[..|lines| - 1])
      case Err(message) => Err(message)
      case Ok(es) =>
        match ParseLine(lines[|lines| - 1])
        case Err(message) => Err(message)
        case Ok(None) => Ok(es)
        case Ok(Some(e)) => Ok(es + [e])
  }

  /** `strip` removes exactly the padding around text whose end
      characters are kept. */
  lemma StripPadding(left: string, t: string, right: string, drop: char -> bool)
    requires forall i :: 0 <= i < |left| ==> drop(left[i])
    requires forall i :: 0 <= i < |right| ==> drop(right[i])
    requires |t| > 0 && !drop(t[0]) && !drop(t[|t| - 1])
    ensures Strip(left + t + right, drop) == t
  {
    var tail := t + right;
    assert left + t + right == left + tail;
    StripLeftPadding(left, tail, drop);
    assert tail[0] == t[0];
    StripRightPadding(t, right, drop);
  }

  lemma {:induction false} StripLeftPadding(left: string, s: string, drop: char -> bool)
    requires forall i :: 0 <= i < |left| ==> drop(left[i])
    ensures StripLeft(left + s, drop) == StripLeft(s, drop)
    decreases |left|
  {
    if |left| > 0 {
      assert (left + s)[1..] == left[1..] + s;
      StripLeftPadding(left[1..], s, drop);
    } else {
      assert left + s == s;
    }
  }

  lemma {:induction false} StripRightPadding(s: string, right: string, drop: char -> bool)
    requires forall i :: 0 <= i < |right| ==> drop(right[i])
    requires |s| > 0 && !drop(s[|s| - 1])
    ensures StripRight(s + right, drop) == s
    decreases |right|
  {
    if |right| > 0 {
      var init := right[..|right| - 1];
      assert (s + right)[..|s + right| - 1] == s + init;
      StripRightPadding(s, init, drop);
    } else {
      assert s + right == s;
    }
  }

  /** Splitting text that starts with a comma-free piece and a separator
      gives that piece first, then the pieces of the rest. */
  lemma {:induction false} SplitFirst(piece: string, sep: char, rest: string)
    requires sep !in piece
    ensures Split(piece + [sep] + rest, sep) == [piece] + Split(rest, sep)
    decreases |piece|
  {
    if |piece| == 0 {
      assert piece + [sep] + rest == [sep] + rest;
      assert ([sep] + rest)[1..] == rest;
    } else {
      var s := piece + [sep] + rest;
      assert s[1..] == piece[1..] + [sep] + rest;
      SplitFirst(piece[1..], sep, rest);
      assert [s[0]] + piece[1..] == piece;
    }
  }

  /** The arguments `value,key,rest` split into `value`, `key` and the
      pieces of `rest`. */
  lemma SplitArguments(value: string, key: string, rest: string)
    requires ',' !in value && ',' !in key
    ensures var fields := Split(value + "," + key + "," + rest, ',');
            |fields| == |Split(rest, ',')| + 2 && fields[0] == value && fields[1] == key
  {
    var tail := key + [','] + rest;
    SplitFirst(key, ',', rest);
    assert Split(tail, ',')[0] == key;
    SplitFirst(value, ',', tail);
    assert value + "," + key + "," + rest == value + [','] + tail;
  }

  /** Whitespace around a line does not change what it contributes. */
  lemma PaddedLine(indent: string, t: string, end: string)
    requires forall i :: 0 <= i < |indent| ==> IsSpace(indent[i])
    requires forall i :: 0 <= i < |end| ==> IsSpace(end[i])
    requires |t| > 0 && !IsSpace(t[0]) && !IsSpace(t[|t| - 1])
    ensures ParseLine(indent + t + end) == ParseLine(t)
  {
    StripPadding(indent, t, end, IsSpace);
    StripPadding("", t, "", IsSpace);
    assert "" + t + "" == t;
  }

  /** An `OpCode::new(value,key,...)` line, indented and ended by any
      whitespace, contributes the entry of its first two arguments. */
  lemma ParseOpcodeLine(indent: string, value: string, key: string, rest: string, end: string)
    requires forall i :: 0 <= i < |indent| ==> IsSpace(indent[i])
    requires forall i :: 0 <= i < |end| ==> IsSpace(end[i])
    requires ',' !in value && ',' !in key && |rest| > 0 && !IsSpace(rest[|rest| - 1])
    ensures ParseLine(indent + (Prefix + "(" + value + "," + key + "," + rest) + end) == Ok(Some(Entry(value, key)))
  {
    var args := value + "," + key + "," + rest;
    var t := Prefix + "(" + args;
    assert Prefix + "(" + value + "," + key + "," + rest == t;
    assert t[|t| - 1] == rest[|rest| - 1];
    PaddedLine(indent, t, end);
    ArgumentsLine(args);
    SplitArguments(value, key, rest);
  }

  lemma ArgumentsLine(args: string)
    ensures var t := Prefix + "(" + args; Selected(t) && Arguments(t) == args
  {
    var t := Prefix + "(" + args;
    assert t[..|Prefix|] == Prefix;
    assert t[|Prefix| + 1..] == args;
  }

  /** The run fails exactly when some contributing line has fewer than two
      fields. */
  lemma EntriesFail(lines: seq<string>)
    ensures Entries(lines).Err? <==> exists i :: 0 <= i < |lines| && ParseLine(lines[i]).Err?
  {
    if Entries(lines).Err? {
      var i := FailingLine(lines);
    }
    forall i | 0 <= i < |lines| && ParseLine(lines[i]).Err?
      ensures Entries(lines).Err?
    {
      FailsAt(lines, i);
    }
  }

  /** A failed run has a line that fails. */
  lemma {:induction false} FailingLine(lines: seq<string>) returns (i: nat)
    requires Entries(lines).Err?
    ensures i < |lines| && ParseLine(lines[i]).Err?
    decreases |lines|
  {
    var init := lines[..|lines| - 1];
    if Entries(init).Err? {
      i := FailingLine(init);
      assert lines[i] == init[i];
    } else {
      i := |lines| - 1;
    }
  }

  /** A line that fails makes the run fail. */
  lemma {:induction false} FailsAt(lines: seq<string>, i: nat)
    requires i < |lines| && ParseLine(lines[i]).Err?
    ensures Entries(lines).Err?
    decreases |lines|
  {
    var init := lines[..|lines| - 1];
    if i < |init| {
      assert init[i] == lines[i];
      FailsAt(init, i);
      assert Entries(lines) == Entries(init);
    } else {
      assert lines[|lines| - 1] == lines[i];
      if Entries(init).Ok? {
        assert Entries(lines) == Err(IndexError);
      }
    }
  }

  /** The `defaultdict(list)` after the loop: its keys in first-insertion
      order (the order `map.items()` yields them) and its lists. */
  datatype Groups = Groups(keys: seq<string>, values: map<string, seq<string>>)

  /** The dictionary the source builds: every key once, keys and entries
      the same, no empty list. */
  ghost predicate GroupsValid(g: Groups) {
    && (forall i, j :: 0 <= i < j < |g.keys| ==> g.keys[i] != g.keys[j])
    && (forall k :: k in g.values <==> k in g.keys)
    && (forall k :: k in g.values ==> |g.values[k]| > 0)
  }

  /** `map[key].append(value)` on a `defaultdict(list)`. */
  function Append(g: Groups, e: Entry): (r: Groups)
    requires GroupsValid(g)
    ensures GroupsValid(r)
  {
    if e.key in g.values then Groups(g.keys, g.values[e.key := g.values[e.key] + [e.value]])
    else Groups(g.keys + [e.key], g.values[e.key := [e.value]])
  }

  /** The dictionary after appending every entry in order. */
  function GroupEntries(es: seq<Entry>): (g: Groups)
    ensures GroupsValid(g)
    decreases |es|
  {
    if |es| == 0 then Groups([], map[])
    else Append(GroupEntries(es[..|es| - 1]), es[|es| - 1])
  }

  /** The values of the entries with key `k`, in file order. */
  function ValuesOf(es: seq<Entry>, k: string): seq<string>
    decreases |es|
  {
    if |es| == 0 then []
    else ValuesOf(es[..|es| - 1], k) + (if es[|es| - 1].key == k then [es[|es| - 1].value] else [])
  }

  /** The keys of the entries in order of first appearance. */
  function FirstKeys(es: seq<Entry>): seq<string>
    decreases |es|
  {
    if |es| == 0 then []
    else
      var ks := FirstKeys(es[..|es| - 1]);
      if es[|es| - 1].key in ks then ks else ks + [es[|es| - 1].key]
  }

  /** The dictionary's keys are the entries' keys in order of first
      appearance. */
  lemma {:induction false} GroupKeys(es: seq<Entry>)
    ensures GroupEntries(es).keys == FirstKeys(es)
    decreases |es|
  {
    if |es| > 0 {
      GroupKeys(es[..|es| - 1]);
    }
  }

  /** A key is in the dictionary exactly when some entry has it. */
  lemma {:induction false} GroupDomain(es: seq<Entry>, k: string)
    ensures k in GroupEntries(es).values <==> exists i :: 0 <= i < |es| && es[i].key == k
    decreases |es|
  {
    if |es| > 0 {
      var init := es[..|es| - 1];
      GroupDomain(init, k);
      if k in GroupEntries(init).values {
        var i :| 0 <= i < |init| && init[i].key == k;
        assert es[i].key == k;
      }
      if exists i :: 0 <= i < |es| && es[i].key == k {
        var i :| 0 <= i < |es| && es[i].key == k;
        if i < |init| {
          assert init[i].key == k;
        }
      }
    }
  }

  /** Each key's list is the values of that key's entries, in file
      order. */
  lemma {:induction false} GroupValues(es: seq<Entry>, k: string)
    requires k in GroupEntries(es).values
    ensures GroupEntries(es).values[k] == ValuesOf(es, k)
    decreases |es|
  {
    var init := es[..|es| - 1];
    var e := es[|es| - 1];
    if k in GroupEntries(init).values {
      GroupValues(init, k);
    } else {
      assert k == e.key;
      GroupDomain(init, k);
      NoValuesWithoutKey(init, k);
    }
  }

  lemma {:induction false} NoValuesWithoutKey(es: seq<Entry>, k: string)
    requires forall i :: 0 <= i < |es| ==> es[i].key != k
    ensures ValuesOf(es, k) == []
    decreases |es|
  {
    if |es| > 0 {
      NoValuesWithoutKey(es[..|es| - 1], k);
    }
  }

  /** The whole first loop: the dictionary, or the `IndexError`. */
  function GroupLines(lines: seq<string>): (r: Result<Groups>)
    ensures r.Ok? ==> GroupsValid(r.value)
  {
    match Entries(lines)
    case Err(message) => Err(message)
    case Ok(es) => Ok(GroupEntries(es))
  }

  /** The first loop of the script, over the lines of the file. */
  method CollectGroups(lines: seq<string>) returns (r: Result<Groups>)
    ensures r == GroupLines(lines)
  {
    var groups := Groups([], map[]);
    ghost var es: seq<Entry> := [];
    var i := 0;
    while i < |lines|
      invariant 0 <= i <= |lines|
      invariant Entries(lines[..i]) == Ok(es)
      invariant groups == GroupEntries(es)
    {
      assert lines[..i + 1][..i] == lines[..i];
      var parsed := ParseLine(lines[i]);
      match parsed {
        case Err(message) =>
          PrefixFails(lines, i + 1);
          return Err(message);
        case Ok(None) =>
        case Ok(Some(e)) =>
          assert (es + [e])[..|es|] == es;
          groups := Append(groups, e);
          es := es + [e];
      }
      i := i + 1;
    }
    assert lines[..i] == lines;
    return Ok(groups);
  }

  /** Once a prefix of the lines fails, the whole run fails the same way. */
  lemma {:induction false} PrefixFails(lines: seq<string>, n: nat)
    requires n <= |lines| && Entries(lines[..n]).Err?
    ensures Entries(lines) == Entries(lines[..n])
    decreases |lines| - n
  {
    if n < |lines| {
      assert lines[..n + 1][..n] == lines[..n];
      PrefixFails(lines, n + 1);
    } else {
      assert lines[..n] == lines;
    }
  }

  // ---------------------------------------------------------------------
  // The second loop: one `match`-arm skeleton per group

  /** What the two `print` calls write for one group. */
  function GroupText(key: string, values: seq<string>): string {
    var header := "// " + Strip(key, IsQuoteOrSpace) + "\n";
    var body := Join(values, " | ");
    header + body + " => {},\n" + "\n"
  }

  /** `map.items()`: the key and list of each group, in key order. */
  function Items(g: Groups): (items: seq<(string, seq<string>)>)
    requires GroupsValid(g)
    ensures |items| == |g.keys|
    ensures forall i :: 0 <= i < |items| ==> items[i] == (g.keys[i], g.values[g.keys[i]])
  {
    seq(|g.keys|, i requires 0 <= i < |g.keys| => (g.keys[i], g.values[g.keys[i]]))
  }

  /** What the second loop prints for the items `items`. */
  function ReportText(items: seq<(string, seq<string>)>): (r: string)
    ensures r == "" <==> |items| == 0
    ensures |items| > 0 ==> |r| >= 5 && r[..3] == "// " && r[|r| - 2..] == "\n\n"
    decreases |items|
  {
    if |items| == 0 then ""
    else ReportText(items[..|items| - 1]) + GroupText(items[|items| - 1].0, items[|items| - 1].1)
  }

  lemma ReportStep(items: seq<(string, seq<string>)>, i: nat)
    requires i < |items|
    ensures ReportText(items[..i + 1]) == ReportText(items[..i]) + GroupText(items[i].0, items[i].1)
  {
    assert items[..i + 1][..i] == items[..i];
  }

  /** The second loop of the script. */
  method Report(g: Groups) returns (out: string)
    requires GroupsValid(g)
    ensures out == ReportText(Items(g))
  {
    ghost var items := Items(g);
    out := "";
    var i := 0;
    while i < |g.keys|
      invariant 0 <= i <= |g.keys|
      invariant out == ReportText(items[..i])
    {
      var key := g.keys[i];
      ReportStep(items, i);
      out := out + GroupText(key, g.values[key]);
      i := i + 1;
    }
    assert items[..i] == items;
  }

  /** The whole script on the lines of opcodes.rs: what it prints, or the
      `IndexError`. */
  function Script(lines: seq<string>): (r: Result<string>)
    ensures r.Err? <==> exists i :: 0 <= i < |lines| && ParseLine(lines[i]).Err?
    ensures r.Err? ==> r.message == IndexError
  {
    EntriesFail(lines);
    match GroupLines(lines)
    case Err(message) => Err(message)
    case Ok(g) => Ok(ReportText(Items(g)))
  }

  /** The script run as its two loops. */
  method RunScript(lines: seq<string>) returns (r: Result<string>)
    ensures r == Script(lines)
  {
    var groups := CollectGroups(lines);
    match groups {
      case Err(message) =>
        return Err(message);
      case Ok(g) =>
        var out := Report(g);
        return Ok(out);
    }
  }
}
