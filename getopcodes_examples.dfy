/** src/getopcodes.py on small inputs shaped like the lines of
    src/opcodes.rs. */
module GetOpcodesExamples {
  import opened Outcomes
  import opened GetOpcodes

  const Indent: string := "        "
  const Tail: string := " 2, 2, AddressingMode::Immediate),"

  lemma IndentIsSpace()
    ensures forall i :: 0 <= i < |Indent| ==> IsSpace(Indent[i])
    ensures forall i :: 0 <= i < |"\n"| ==> IsSpace("\n"[i])
  {
  }

  /** The header shows a quoted key without its quotes and the space
      before it. */
  lemma QuotedKey(k: string)
    requires |k| > 0 && !IsQuoteOrSpace(k[0]) && !IsQuoteOrSpace(k[|k| - 1])
    ensures Strip(" \"" + k + "\"", IsQuoteOrSpace) == k
    ensures Strip("\"" + k + "\"", IsQuoteOrSpace) == k
  {
    StripPadding(" \"", k, "\"", IsQuoteOrSpace);
    StripPadding("\"", k, "\"", IsQuoteOrSpace);
  }
  // The dictionary, its items and the report for one or two entries.

  lemma GroupOne(e: Entry)
    ensures GroupEntries([e]) == Groups([e.key], map[e.key := [e.value]])
  {
    assert [e][..0] == [];
  }
  lemma GroupSame(e: Entry, f: Entry)
    requires e.key == f.key
    ensures GroupEntries([e, f]) == Groups([e.key], map[e.key := [e.value, f.value]])
  {
    assert [e, f][..1] == [e];
    GroupOne(e);
    assert [e.value] + [f.value] == [e.value, f.value];
  }
  lemma GroupDistinct(e: Entry, f: Entry)
    requires e.key != f.key
    ensures GroupEntries([e, f]) == Groups([e.key, f.key], map[e.key := [e.value], f.key := [f.value]])
  {
    assert [e, f][..1] == [e];
    GroupOne(e);
    assert [e.key] + [f.key] == [e.key, f.key];
  }
  lemma ItemsOne(k: string, vs: seq<string>)
    requires |vs| > 0
    ensures Items(Groups([k], map[k := vs])) == [(k, vs)]
  {
  }
  lemma ItemsTwo(k: string, vs: seq<string>, l: string, ws: seq<string>)
    requires |vs| > 0 && |ws| > 0 && k != l
    ensures Items(Groups([k, l], map[k := vs, l := ws])) == [(k, vs), (l, ws)]
  {
  }
  lemma OneGroupText(key: string, values: seq<string>)
    ensures ReportText([(key, values)]) == GroupText(key, values)
  {
    assert [(key, values)][..0] == [];
  }
  lemma TwoGroupsText(k1: string, v1: seq<string>, k2: string, v2: seq<string>)
    ensures ReportText([(k1, v1), (k2, v2)]) == GroupText(k1, v1) + GroupText(k2, v2)
  {
    assert [(k1, v1), (k2, v2)][..1] == [(k1, v1)];
    OneGroupText(k1, v1);
  }
  lemma JoinTwo(a: string, b: string)
    ensures Join([a], " | ") == a
    ensures Join([a, b], " | ") == a + " | " + b
  {
    assert [a, b][1..] == [b];
  }

  lemma EntriesOne(first: string, e: Entry)
    requires ParseLine(first) == Ok(Some(e))
    ensures Entries([first]) == Ok([e])
  {
    assert [first][..0] == [];
    assert Entries([]) == Ok([]);
    assert [] + [e] == [e];
  }

  lemma EntriesTwo(first: string, second: string, e: Entry, f: Entry)
    requires ParseLine(first) == Ok(Some(e)) && ParseLine(second) == Ok(Some(f))
    ensures Entries([first, second]) == Ok([e, f])
  {
    EntriesOne(first, e);
    assert [first, second][..1] == [first];
    assert [e] + [f] == [e, f];
  }

  /** A file of one contributing line prints that line's group. */
  lemma ScriptOne(line: string, e: Entry)
    requires ParseLine(line) == Ok(Some(e))
    ensures Script([line]) == Ok(GroupText(e.key, [e.value]))
  {
    EntriesOne(line, e);
    GroupOne(e);
    ItemsOne(e.key, [e.value]);
    OneGroupText(e.key, [e.value]);
  }

  /** Two contributing lines with the same key print one group. */
  lemma ScriptSame(first: string, second: string, e: Entry, f: Entry)
    requires ParseLine(first) == Ok(Some(e)) && ParseLine(second) == Ok(Some(f)) && e.key == f.key
    ensures Script([first, second]) == Ok(GroupText(e.key, [e.value, f.value]))
  {
    EntriesTwo(first, second, e, f);
    GroupSame(e, f);
    ItemsOne(e.key, [e.value, f.value]);
    OneGroupText(e.key, [e.value, f.value]);
  }

  /** Two contributing lines with different keys print two groups. */
  lemma ScriptDistinct(first: string, second: string, e: Entry, f: Entry)
    requires ParseLine(first) == Ok(Some(e)) && ParseLine(second) == Ok(Some(f)) && e.key != f.key
    ensures Script([first, second]) == Ok(GroupText(e.key, [e.value]) + GroupText(f.key, [f.value]))
  {
    EntriesTwo(first, second, e, f);
    GroupDistinct(e, f);
    ItemsTwo(e.key, [e.value], f.key, [f.value]);
    TwoGroupsText(e.key, [e.value], f.key, [f.value]);
  }

  /** An empty file prints nothing. */
  lemma EmptyFile()
    ensures Script([]) == Ok("")
  {
    assert Items(Groups([], map[])) == [];
  }

  /** The line of `opcodes.rs` for `value` with field 1 `key`. */
  function Line(value: string, key: string): string {
    Indent + (Prefix + "(" + value + "," + key + "," + Tail) + "\n"
  }

  /** A mnemonic as it can appear between quotes. */
  predicate Mnemonic(name: string) {
    |name| > 0 && !IsQuoteOrSpace(name[0]) && !IsQuoteOrSpace(name[|name| - 1]) && ',' !in name
  }

  /** An indented `OpCode::new` line with its newline contributes its value
      under the field-1 text. */
  lemma LineEntry(value: string, key: string)
    requires ',' !in value && ',' !in key
    ensures ParseLine(Line(value, key)) == Ok(Some(Entry(value, key)))
  {
    IndentIsSpace();
    assert Tail[|Tail| - 1] == ',';
    ParseOpcodeLine(Indent, value, key, Tail, "\n");
  }

  lemma QuotedEntry(value: string, name: string)
    requires ',' !in value && Mnemonic(name)
    ensures ParseLine(Line(value, " \"" + name + "\"")) == Ok(Some(Entry(value, " \"" + name + "\"")))
    ensures ParseLine(Line(value, "\"" + name + "\"")) == Ok(Some(Entry(value, "\"" + name + "\"")))
  {
    assert ',' !in " \"" + name + "\"";
    assert ',' !in "\"" + name + "\"";
    LineEntry(value, " \"" + name + "\"");
    LineEntry(value, "\"" + name + "\"");
  }

  /** One line gives one group, headed by the mnemonic. */
  lemma OneLine(value: string, name: string)
    requires ',' !in value && Mnemonic(name)
    ensures Script([Line(value, " \"" + name + "\"")]) == Ok("// " + name + "\n" + value + " => {},\n" + "\n")
  {
    QuotedEntry(value, name);
    ScriptOne(Line(value, " \"" + name + "\""), Entry(value, " \"" + name + "\""));
    QuotedKey(name);
    JoinTwo(value, value);
  }

  /** Two lines with the same field 1 share a group, values in file
      order. */
  lemma SameKey(first: string, second: string, name: string)
    requires ',' !in first && ',' !in second && Mnemonic(name)
    ensures Script([Line(first, " \"" + name + "\""), Line(second, " \"" + name + "\"")])
            == Ok("// " + name + "\n" + (first + " | " + second) + " => {},\n" + "\n")
  {
    QuotedEntry(first, name);
    QuotedEntry(second, name);
    ScriptSame(Line(first, " \"" + name + "\""), Line(second, " \"" + name + "\""),
               Entry(first, " \"" + name + "\""), Entry(second, " \"" + name + "\""));
    QuotedKey(name);
    JoinTwo(first, second);
  }

  /** Field 1 with and without its leading space are two keys: two groups,
      both headed by the same mnemonic. */
  lemma TwoSpellings(first: string, second: string, name: string)
    requires ',' !in first && ',' !in second && Mnemonic(name)
    ensures Script([Line(first, " \"" + name + "\""), Line(second, "\"" + name + "\"")])
            == Ok(("// " + name + "\n" + first + " => {},\n" + "\n") + ("// " + name + "\n" + second + " => {},\n" + "\n"))
  {
    QuotedEntry(first, name);
    QuotedEntry(second, name);
    assert (" \"" + name + "\"")[0] == ' ' && ("\"" + name + "\"")[0] == '"';
    ScriptDistinct(Line(first, " \"" + name + "\""), Line(second, "\"" + name + "\""),
                   Entry(first, " \"" + name + "\""), Entry(second, "\"" + name + "\""));
    QuotedKey(name);
    JoinTwo(first, second);
    JoinTwo(second, first);
  }

  /** A call with one argument has no field 1: the script stops with
      `IndexError` and prints nothing. */
  lemma OneArgument(argument: string)
    requires ',' !in argument && |argument| > 0 && !IsSpace(argument[|argument| - 1])
    ensures Script([Prefix + "(" + argument]) == Err(IndexError)
  {
    var line := Prefix + "(" + argument;
    assert line[0] == 'O' && line[|line| - 1] == argument[|argument| - 1];
    StripPadding("", line, "", IsSpace);
    assert "" + line + "" == line;
    assert line[..|Prefix|] == Prefix;
    assert Arguments(line) == argument;
    ParseLineMeaning(line);
    assert [line][0] == line;
  }
}
