/**
  serde's `rename_all = "camelCase"` rule, which fixes every wire field name and every
  camelCase enum tag of the wire model.
*/
module Naming {

  function AsciiUpper(c: char): char {
    if 'a' <= c <= 'z' then (c as int - 32) as char else c
  }

  function AsciiLower(c: char): char {
    if 'A' <= c <= 'Z' then (c as int + 32) as char else c
  }

  /** serde's PascalCase rule for fields: each `_` is dropped and the letter after it, like the first letter, is upper-cased. */
  function Pascal(field: string, capitalize: bool): (r: string)
    ensures |r| <= |field|
  {
    if field == [] then []
    else if field[0] == '_' then Pascal(field[1..], true)
    else if capitalize then [AsciiUpper(field[0])] + Pascal(field[1..], false)
    else [field[0]] + Pascal(field[1..], false)
  }

  /** serde's camelCase rule for a snake_case field name: PascalCase, then the first letter lower-cased. */
  function FieldCamelCase(field: string): string {
    var pascal := Pascal(field, true);
    if pascal == [] then [] else [AsciiLower(pascal[0])] + pascal[1..]
  }

  /** serde's camelCase rule for a PascalCase variant name: the first letter lower-cased. */
  function VariantCamelCase(variant: string): string {
    if variant == [] then [] else [AsciiLower(variant[0])] + variant[1..]
  }

  /** A lower-case ASCII word: one segment of a snake_case Rust identifier. */
  predicate IsWord(w: string) {
    w != [] && forall i :: 0 <= i < |w| ==> 'a' <= w[i] <= 'z'
  }

  predicate AreWords(words: seq<string>) {
    forall i :: 0 <= i < |words| ==> IsWord(words[i])
  }

  /** Words joined with `_`, the way Rust spells a field name. */
  function SnakeCase(words: seq<string>): string {
    if words == [] then []
    else if |words| == 1 then words[0]
    else words[0] + "_" + SnakeCase(words[1..])
  }

  function Capitalized(w: string): string
    requires w != []
  {
    [AsciiUpper(w[0])] + w[1..]
  }

  /** Every word capitalized and concatenated. */
  function CapitalizedWords(words: seq<string>): string
    requires AreWords(words)
  {
    if words == [] then [] else Capitalized(words[0]) + CapitalizedWords(words[1..])
  }

  /** The first word as it is, the others capitalized: the camelCase spelling. */
  function CamelCase(words: seq<string>): string
    requires AreWords(words)
  {
    if words == [] then [] else words[0] + CapitalizedWords(words[1..])
  }

  lemma {:induction false} PascalDropsUnderscores(field: string, capitalize: bool)
    ensures '_' !in Pascal(field, capitalize)
  {
    if field != [] {
      PascalDropsUnderscores(field[1..], true);
      PascalDropsUnderscores(field[1..], false);
    }
  }

  /** No wire field name carries an underscore. */
  lemma FieldCamelCaseHasNoUnderscore(field: string)
    ensures '_' !in FieldCamelCase(field)
  {
    var pascal := Pascal(field, true);
    PascalDropsUnderscores(field, true);
    if pascal != [] {
      assert FieldCamelCase(field) == [AsciiLower(pascal[0])] + pascal[1..];
      assert forall i :: 1 <= i < |pascal| ==> pascal[i] != '_';
    }
  }

  lemma {:induction false} PascalOfPlainName(field: string)
    requires '_' !in field
    ensures Pascal(field, false) == field
  {
    if field != [] {
      assert field[0] != '_';
      assert '_' !in field[1..];
      PascalOfPlainName(field[1..]);
    }
  }

  /** A one-word lower-case field name is its own wire name. */
  lemma FieldCamelCaseOfOneWord(field: string)
    requires '_' !in field
    requires forall i :: 0 <= i < |field| ==> !('A' <= field[i] <= 'Z')
    ensures FieldCamelCase(field) == field
  {
    if field != [] {
      assert '_' !in field[1..];
      PascalOfPlainName(field[1..]);
      assert Pascal(field, true) == [AsciiUpper(field[0])] + field[1..];
    }
  }

  lemma {:induction false} PascalOfPlainPrefix(a: string, rest: string, capitalize: bool)
    requires a != [] && '_' !in a
    ensures Pascal(a + rest, capitalize) == Pascal(a, capitalize) + Pascal(rest, false)
  {
    DropOneOfAppend(a, rest);
    if |a| > 1 {
      assert '_' !in a[1..];
      PascalOfPlainPrefix(a[1..], rest, false);
    } else {
      assert a[1..] == [];
    }
  }

  lemma PascalOfWord(w: string, capitalize: bool)
    requires IsWord(w)
    ensures Pascal(w, capitalize) == if capitalize then Capitalized(w) else w
  {
    assert '_' !in w[1..];
    PascalOfPlainName(w[1..]);
  }

  lemma DropOneOfAppend(a: string, rest: string)
    requires a != []
    ensures (a + rest)[0] == a[0] && (a + rest)[1..] == a[1..] + rest
  {
  }

  lemma Associate(w: string, tail: string)
    ensures w + "_" + tail == w + ("_" + tail)
  {
  }

  lemma PascalAfterUnderscore(tail: string)
    ensures Pascal("_" + tail, false) == Pascal(tail, true)
  {
    assert ("_" + tail)[1..] == tail;
  }

  lemma {:induction false} PascalOfSnakeCase(words: seq<string>)
    requires |words| > 0 && AreWords(words)
    ensures Pascal(SnakeCase(words), true) == CapitalizedWords(words)
  {
    PascalOfWord(words[0], true);
    if |words| == 1 {
      assert CapitalizedWords(words[1..]) == [];
    } else {
      var tail := SnakeCase(words[1..]);
      Associate(words[0], tail);
      PascalOfPlainPrefix(words[0], "_" + tail, true);
      PascalAfterUnderscore(tail);
      PascalOfSnakeCase(words[1..]);
    }
  }

  /** serde's camelCase rule turns a snake_case field name into its camelCase spelling. */
  lemma FieldCamelCaseOfSnakeCase(words: seq<string>)
    requires |words| > 0 && AreWords(words)
    ensures FieldCamelCase(SnakeCase(words)) == CamelCase(words)
  {
    PascalOfSnakeCase(words);
    var w, rest := words[0], CapitalizedWords(words[1..]);
    LowerFirstOfCapitalized(w, rest);
    FieldCamelCaseOfPascal(SnakeCase(words), Capitalized(w) + rest);
  }

  lemma LowerFirstOfCapitalized(w: string, rest: string)
    requires w != [] && 'a' <= w[0] <= 'z'
    ensures var p := Capitalized(w) + rest; [AsciiLower(p[0])] + p[1..] == w + rest
  {
    var p := Capitalized(w) + rest;
    assert p == [AsciiUpper(w[0])] + (w[1..] + rest);
    assert p[1..] == w[1..] + rest;
    assert [w[0]] + (w[1..] + rest) == w + rest;
  }

  lemma FieldCamelCaseOfPascal(field: string, pascal: string)
    requires Pascal(field, true) == pascal && pascal != []
    ensures FieldCamelCase(field) == [AsciiLower(pascal[0])] + pascal[1..]
  {
  }

  /** The camelCase spelling of a two-word field name `a_b`. */
  lemma FieldCamelCaseOfTwoWords(a: string, b: string)
    requires IsWord(a) && IsWord(b)
    ensures FieldCamelCase(a + "_" + b) == a + Capitalized(b)
  {
    var words := [a, b];
    assert AreWords(words);
    assert SnakeCase(words) == a + "_" + b by {
      assert words[1..] == [b];
    }
    assert CamelCase(words) == a + Capitalized(b) by {
      assert words[1..] == [b];
      assert CapitalizedWords([b]) == Capitalized(b) + CapitalizedWords([]);
    }
    FieldCamelCaseOfSnakeCase(words);
  }
}
