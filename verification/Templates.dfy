// generateTemplate of mail.service.ts: placeholders are filled one key after
// another by splitting the text at {{key}} and joining the parts with the value.
module Templates {
  // ------------------------------------------------------------------------
  // String.split and Array.join.

  predicate StartsWith(text: string, sep: string) {
    |sep| <= |text| && text[..|sep|] == sep
  }

  function Split(text: string, sep: string): (parts: seq<string>)
    requires sep != ""
    ensures parts != []
    decreases |text|
  {
    if text == "" then [""]
    else if StartsWith(text, sep) then [""] + Split(text[|sep|..], sep)
    else
      var parts := Split(text[1..], sep);
      [[text[0]] + parts[0]] + parts[1..]
  }

  function Join(parts: seq<string>, glue: string): string {
    if parts == [] then ""
    else if |parts| == 1 then parts[0]
    else parts[0] + glue + Join(parts[1..], glue)
  }

  // Both together: every leftmost, non-overlapping occurrence is replaced.
  function Replace(text: string, sep: string, value: string): string
    requires sep != ""
    decreases |text|
  {
    if text == "" then ""
    else if StartsWith(text, sep) then value + Replace(text[|sep|..], sep, value)
    else [text[0]] + Replace(text[1..], sep, value)
  }

  lemma JoinLonger(c: char, parts: seq<string>, value: string)
    requires parts != []
    ensures Join([[c] + parts[0]] + parts[1..], value) == [c] + Join(parts, value)
  {
    var longer := [[c] + parts[0]] + parts[1..];
    assert longer[1..] == parts[1..];
  }

  lemma JoinEmpty(parts: seq<string>, value: string)
    requires parts != []
    ensures Join([""] + parts, value) == value + Join(parts, value)
  {
    assert ([""] + parts)[1..] == parts;
  }

  lemma {:induction false} SplitJoinIsReplace(text: string, sep: string, value: string)
    requires sep != ""
    ensures Join(Split(text, sep), value) == Replace(text, sep, value)
    decreases |text|
  {
    if text != "" {
      if StartsWith(text, sep) {
        SplitJoinIsReplace(text[|sep|..], sep, value);
        JoinEmpty(Split(text[|sep|..], sep), value);
      } else {
        SplitJoinIsReplace(text[1..], sep, value);
        JoinLonger(text[0], Split(text[1..], sep), value);
      }
    }
  }

  // ------------------------------------------------------------------------
  // The code: one pass over the text for each key, in the order of Object.keys.

  function Placeholder(key: string): (p: string)
    ensures |p| == |key| + 4
  {
    "{{" + key + "}}"
  }

  function Generate(sheet: string, keys: seq<string>, items: map<string, string>): string
    requires forall k :: k in keys ==> k in items
  {
    if keys == [] then sheet
    else
      var last := keys[|keys| - 1];
      Replace(Generate(sheet, keys[..|keys| - 1], items), Placeholder(last), items[last])
  }

  method GenerateTemplate(sheet: string, keys: seq<string>, items: map<string, string>) returns (template: string)
    requires forall k :: k in keys ==> k in items
    ensures template == Generate(sheet, keys, items)
  {
    template := sheet;
    for i := 0 to |keys|
      invariant template == Generate(sheet, keys[..i], items)
    {
      SplitJoinIsReplace(template, Placeholder(keys[i]), items[keys[i]]);
      template := Join(Split(template, Placeholder(keys[i])), items[keys[i]]);
      assert keys[..i + 1][..i] == keys[..i];
    }
    assert keys[..|keys|] == keys;
  }

  // ------------------------------------------------------------------------
  // The reference: a template as literals and placeholders, filled all at once.

  datatype Piece = Literal(text: string) | Slot(key: string)

  predicate BraceFree(s: string) {
    forall i :: 0 <= i < |s| ==> s[i] != '{' && s[i] != '}'
  }

  // Text with an opening brace; closing ones alone do no harm.
  predicate Opens(s: string) {
    '{' in s
  }

  predicate Clean(pieces: seq<Piece>) {
    forall i :: 0 <= i < |pieces| ==>
      if pieces[i].Literal? then !Opens(pieces[i].text) else BraceFree(pieces[i].key)
  }

  function Show(piece: Piece): string {
    match piece case Literal(text) => text case Slot(key) => Placeholder(key)
  }

  function Render(pieces: seq<Piece>): string {
    if pieces == [] then "" else Show(pieces[0]) + Render(pieces[1..])
  }

  function FillPiece(piece: Piece, items: map<string, string>): Piece {
    if piece.Slot? && piece.key in items then Literal(items[piece.key]) else piece
  }

  // Simultaneous substitution; a placeholder without a value stays.
  function Fill(pieces: seq<Piece>, items: map<string, string>): (filled: seq<Piece>)
    ensures |filled| == |pieces|
    ensures forall i :: 0 <= i < |pieces| ==> filled[i] == FillPiece(pieces[i], items)
  {
    seq(|pieces|, i requires 0 <= i < |pieces| => FillPiece(pieces[i], items))
  }

  // ------------------------------------------------------------------------
  // One pass fills exactly the slots of its key.

  lemma {:induction false} CopyText(s: string, rest: string, key: string, value: string)
    requires forall i :: 0 <= i < |s| ==> s[i] != '{'
    ensures Replace(s + rest, Placeholder(key), value) == s + Replace(rest, Placeholder(key), value)
  {
    if s == "" {
      assert s + rest == rest;
    } else {
      CopyText(s[1..], rest, key, value);
      assert (s + rest)[1..] == s[1..] + rest;
      assert (s + rest)[0] != Placeholder(key)[0];
      assert !StartsWith(s + rest, Placeholder(key));
    }
  }

  lemma SamePlaceholder(key: string, other: string, rest: string)
    requires BraceFree(key) && BraceFree(other)
    requires StartsWith(Placeholder(other) + rest, Placeholder(key))
    ensures key == other
  {
    var text, sep := Placeholder(other) + rest, Placeholder(key);
    forall i | 0 <= i < |sep|
      ensures sep[i] == text[i]
    {
      assert text[..|sep|][i] == text[i];
    }
    assert forall i :: 2 <= i < 2 + |key| ==> sep[i] == key[i - 2];
    assert forall i :: 2 <= i < 2 + |other| ==> text[i] == other[i - 2];
    assert sep[2 + |key|] == '}' && text[2 + |other|] == '}';
    assert text[2 + |key|] == sep[2 + |key|];
    assert |key| == |other|;
    forall i | 0 <= i < |key|
      ensures key[i] == other[i]
    {
      assert sep[2 + i] == text[2 + i];
    }
  }

  lemma CopySlot(other: string, rest: string, key: string, value: string)
    requires BraceFree(key) && BraceFree(other) && key != other
    ensures Replace(Placeholder(other) + rest, Placeholder(key), value)
      == Placeholder(other) + Replace(rest, Placeholder(key), value)
  {
    var sep, text, tail := Placeholder(key), Placeholder(other) + rest, other + "}}";
    if StartsWith(text, sep) {
      SamePlaceholder(key, other, rest);
    }
    assert text[1..] == "{" + (tail + rest);
    assert text[1..][1..] == tail + rest;
    assert text[1..][1] != sep[1];
    assert !StartsWith(text[1..], sep);
    CopyText(tail, rest, key, value);
    assert Placeholder(other) == "{" + ("{" + tail);
  }

  lemma FillSlot(rest: string, key: string, value: string)
    ensures Replace(Placeholder(key) + rest, Placeholder(key), value) == value + Replace(rest, Placeholder(key), value)
  {
    assert (Placeholder(key) + rest)[|Placeholder(key)|..] == rest;
  }

  lemma {:induction false} OnePass(pieces: seq<Piece>, key: string, value: string)
    requires Clean(pieces) && BraceFree(key)
    ensures Replace(Render(pieces), Placeholder(key), value) == Render(Fill(pieces, map[key := value]))
  {
    if pieces != [] {
      var rest := pieces[1..];
      OnePass(rest, key, value);
      assert Fill(pieces, map[key := value])[1..] == Fill(rest, map[key := value]);
      match pieces[0]
      case Literal(text) => CopyText(text, Render(rest), key, value);
      case Slot(other) =>
        if other == key {
          FillSlot(Render(rest), key, value);
        } else {
          CopySlot(other, Render(rest), key, value);
        }
    }
  }

  // ------------------------------------------------------------------------
  // The main results.

  function Restrict(items: map<string, string>, keys: seq<string>): map<string, string>
    requires forall k :: k in keys ==> k in items
  {
    map k | k in keys :: items[k]
  }

  lemma FillTwice(pieces: seq<Piece>, front: seq<string>, last: string, items: map<string, string>)
    requires forall k :: k in front + [last] ==> k in items
    ensures Fill(Fill(pieces, Restrict(items, front)), map[last := items[last]])
      == Fill(pieces, Restrict(items, front + [last]))
  {
    assert forall k :: k in front + [last] <==> k in front || k == last;
  }

  // For brace-free keys, and literals and values without an opening brace, filling
  // key after key, in any order and however often, is filling all of them at once.
  lemma {:induction false} SequentialIsSimultaneous(pieces: seq<Piece>, keys: seq<string>, items: map<string, string>)
    requires forall k :: k in keys ==> k in items && BraceFree(k) && !Opens(items[k])
    requires Clean(pieces)
    ensures Generate(Render(pieces), keys, items) == Render(Fill(pieces, Restrict(items, keys)))
  {
    if keys == [] {
      assert Fill(pieces, map[]) == pieces;
    } else {
      var front, last := keys[..|keys| - 1], keys[|keys| - 1];
      assert keys == front + [last];
      SequentialIsSimultaneous(pieces, front, items);
      OnePass(Fill(pieces, Restrict(items, front)), last, items[last]);
      FillTwice(pieces, front, last, items);
    }
  }

  // Two enumerations of the same keys give the same mail, and it is the
  // simultaneous substitution: placeholders without a value are left as they are.
  lemma KeyOrderIsIrrelevant(pieces: seq<Piece>, keys: seq<string>, other: seq<string>, items: map<string, string>)
    requires forall k :: k in items <==> k in keys
    requires forall k :: k in items <==> k in other
    requires forall k :: k in items ==> BraceFree(k) && !Opens(items[k])
    requires Clean(pieces)
    ensures Generate(Render(pieces), keys, items) == Render(Fill(pieces, items))
    ensures Generate(Render(pieces), keys, items) == Generate(Render(pieces), other, items)
  {
    SequentialIsSimultaneous(pieces, keys, items);
    SequentialIsSimultaneous(pieces, other, items);
    assert Restrict(items, keys) == items == Restrict(items, other);
  }

  // A value that itself holds a placeholder is filled again by a later key, so
  // with braces in a value the order of the keys shows.
  lemma BracesInValuesShowTheOrder()
    ensures var items := map["a" := "{{b}}", "b" := "x"];
      && Generate("{{a}}", ["a", "b"], items) == "x"
      && Generate("{{a}}", ["b", "a"], items) == "{{b}}"
  {
    var items := map["a" := "{{b}}", "b" := "x"];
    TwoKeys("{{a}}", "a", "b", items);
    TwoKeys("{{a}}", "b", "a", items);
    Single("a", "{{b}}");
    Single("b", "x");
    CopySlot("a", "", "b", "x");
    assert Placeholder("a") == "{{a}}" && Placeholder("a") + "" == "{{a}}" && Placeholder("b") == "{{b}}";
  }

  // Values over an alphabet are safe: whatever the template, the keys and their
  // order, filling one after another is filling all at once.
  ghost predicate SafeValues(alphabet: set<char>) {
    forall pieces, keys, items :: Fillable(alphabet, pieces, keys, items) ==> InOneGo(pieces, keys, items)
  }

  ghost predicate Fillable(alphabet: set<char>, pieces: seq<Piece>, keys: seq<string>, items: map<string, string>) {
    && Clean(pieces)
    && forall k :: k in keys ==> k in items && BraceFree(k) && forall c :: c in items[k] ==> c in alphabet
  }

  ghost predicate InOneGo(pieces: seq<Piece>, keys: seq<string>, items: map<string, string>)
    requires forall k :: k in keys ==> k in items
  {
    Generate(Render(pieces), keys, items) == Render(Fill(pieces, Restrict(items, keys)))
  }

  // They are safe exactly when the alphabet lacks the opening brace: two values
  // that are one brace each and a literal after them make a placeholder.
  lemma ValuesAreSafeExactlyWhen(alphabet: set<char>)
    ensures SafeValues(alphabet) <==> '{' !in alphabet
  {
    if '{' in alphabet {
      BracesMakeAPlaceholder();
      assert Fillable(alphabet, BRACED, ["a", "b"], map["a" := "{", "b" := ""]);
    } else {
      forall pieces, keys, items | Fillable(alphabet, pieces, keys, items)
        ensures InOneGo(pieces, keys, items)
      {
        SequentialIsSimultaneous(pieces, keys, items);
      }
    }
  }

  const BRACED := [Slot("a"), Slot("a"), Literal("b}}")]

  lemma BracesMakeAPlaceholder()
    ensures var items := map["a" := "{", "b" := ""];
      && Clean(BRACED) && Generate(Render(BRACED), ["a", "b"], items) == ""
      && Render(Fill(BRACED, Restrict(items, ["a", "b"]))) == "{{b}}"
  {
    var items := map["a" := "{", "b" := ""];
    BracedText();
    FirstPass();
    TwoKeys(Render(BRACED), "a", "b", items);
    Single("b", "");
    FilledText(Fill(BRACED, Restrict(items, ["a", "b"])));
  }

  lemma BracedText()
    ensures Render(BRACED) == Placeholder("a") + (Placeholder("a") + "b}}")
  {
    assert Render(BRACED[2..]) == "b}}";
    assert Render(BRACED[1..]) == Placeholder("a") + "b}}";
  }

  lemma FirstPass()
    ensures Replace(Placeholder("a") + (Placeholder("a") + "b}}"), Placeholder("a"), "{") == Placeholder("b")
  {
    FillSlot(Placeholder("a") + "b}}", "a", "{");
    FillSlot("b}}", "a", "{");
    CopyText("b}}", "", "a", "{");
    assert "b}}" + "" == "b}}";
    assert "{" + ("{" + "b}}") == Placeholder("b");
  }

  lemma FilledText(filled: seq<Piece>)
    requires filled == [Literal("{"), Literal("{"), Literal("b}}")]
    ensures Render(filled) == "{{b}}"
  {
    assert Render(filled[2..]) == "b}}" && Render(filled[1..]) == "{b}}";
  }

  lemma TwoKeys(sheet: string, first: string, second: string, items: map<string, string>)
    requires first in items && second in items
    ensures Generate(sheet, [first, second], items)
      == Replace(Replace(sheet, Placeholder(first), items[first]), Placeholder(second), items[second])
  {
    assert [first, second][..1] == [first] && [first][..0] == [];
    assert Generate(sheet, [first], items) == Replace(sheet, Placeholder(first), items[first]);
  }

  lemma Single(key: string, value: string)
    ensures Replace(Placeholder(key), Placeholder(key), value) == value
  {
    FillSlot("", key, value);
    assert Placeholder(key) + "" == Placeholder(key);
  }
}
