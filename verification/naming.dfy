/**
 Field names in PbCJson.cpp: the lowerCamelCase keys it prints, the snake_case names it guesses
 back, and the three-stage lookup that connects a key to a field.
 */
module Naming {
  import opened Options

  predicate IsUpper(c: char)
  {
    'A' <= c <= 'Z'
  }

  predicate IsLower(c: char)
  {
    'a' <= c <= 'z'
  }

  function ToUpper(c: char): char
  {
    if IsLower(c) then c - 'a' + 'A' else c
  }

  function ToLower(c: char): char
  {
    if IsUpper(c) then c - 'A' + 'a' else c
  }

  /** The letters are the ASCII ones, and the conversions move between their two rows. */
  lemma LettersAreAscii(c: char)
    ensures IsUpper(c) <==> 65 <= c as int <= 90
    ensures IsLower(c) <==> 97 <= c as int <= 122
    ensures ToLower(c) as int == c as int + (if IsUpper(c) then 32 else 0)
    ensures ToUpper(c) as int == c as int - (if IsLower(c) then 32 else 0)
  {
  }

  // ----- the two conversions

  /** `capital` says that an underscore has just been dropped. */
  function CamelFrom(name: string, capital: bool): string
  {
    if name == "" then ""
    else if name[0] == '_' then CamelFrom(name[1..], true)
    else [if capital then ToUpper(name[0]) else name[0]] + CamelFrom(name[1..], false)
  }

  function Camel(name: string): string
  {
    CamelFrom(name, false)
  }

  /** Every capital but a leading one starts a new word. */
  function SnakeFrom(key: string, leading: bool): string
  {
    if key == "" then ""
    else
      (if IsUpper(key[0]) then (if leading then "" else "_") + [ToLower(key[0])] else [key[0]])
      + SnakeFrom(key[1..], false)
  }

  function Snake(key: string): string
  {
    SnakeFrom(key, true)
  }

  lemma NextOfCamel(out: string, snake: string, p: nat, upper: bool)
    requires p < |snake|
    ensures var c := snake[p];
            out + CamelFrom(snake[p..], upper)
            == if c == '_' then out + CamelFrom(snake[p + 1..], true)
               else (out + [if upper then ToUpper(c) else c]) + CamelFrom(snake[p + 1..], false)
  {
    assert snake[p..][1..] == snake[p + 1..];
    var c := [if upper then ToUpper(snake[p]) else snake[p]];
    var rest := CamelFrom(snake[p + 1..], false);
    assert out + (c + rest) == (out + c) + rest;
  }

  method SnakeToCamel(snake: string) returns (out: string)
    ensures out == Camel(snake)
  {
    out := "";
    var upper := false;
    for p := 0 to |snake|
      invariant out + CamelFrom(snake[p..], upper) == Camel(snake)
    {
      NextOfCamel(out, snake, p, upper);
      if snake[p] == '_' {
        upper := true;
        continue;
      }
      if upper {
        out := out + [ToUpper(snake[p])];
        upper := false;
      } else {
        out := out + [snake[p]];
      }
    }
    assert out + "" == out;
  }

  lemma NextOfSnake(out: string, camel: string, i: nat)
    requires i < |camel|
    ensures var c := camel[i];
            out + SnakeFrom(camel[i..], i == 0)
            == (if IsUpper(c) then (if i > 0 then out + "_" else out) + [ToLower(c)] else out + [c])
               + SnakeFrom(camel[i + 1..], false)
  {
    assert camel[i..][1..] == camel[i + 1..];
    var c, rest := camel[i], SnakeFrom(camel[i + 1..], false);
    var word := if IsUpper(c) then (if i == 0 then "" else "_") + [ToLower(c)] else [c];
    assert SnakeFrom(camel[i..], i == 0) == word + rest;
    assert out + (word + rest) == (out + word) + rest;
    assert IsUpper(c) && i > 0 ==> out + word == out + "_" + [ToLower(c)];
  }

  method CamelToSnake(camel: string) returns (out: string)
    ensures out == Snake(camel)
  {
    out := "";
    for i := 0 to |camel|
      invariant out + SnakeFrom(camel[i..], i == 0) == Snake(camel)
    {
      NextOfSnake(out, camel, i);
      var c := camel[i];
      if IsUpper(c) {
        if i > 0 {
          out := out + "_";
        }
        out := out + [ToLower(c)];
      } else {
        out := out + [c];
      }
    }
    assert out + "" == out;
  }

  // ----- what the conversions do

  /** The conversions work from left to right; all that is carried over a cut is whether an
      underscore has just been dropped, and whether anything has gone before. */
  lemma {:induction false} CamelOfConcat(a: string, b: string, capital: bool)
    ensures CamelFrom(a + b, capital)
         == CamelFrom(a, capital) + CamelFrom(b, if a == "" then capital else a[|a| - 1] == '_')
  {
    if a == "" {
      assert a + b == b;
    } else {
      assert (a + b)[1..] == a[1..] + b;
      CamelOfConcat(a[1..], b, a[0] == '_');
    }
  }

  lemma {:induction false} SnakeOfConcat(a: string, b: string, leading: bool)
    ensures SnakeFrom(a + b, leading) == SnakeFrom(a, leading) + SnakeFrom(b, leading && a == "")
  {
    if a == "" {
      assert a + b == b;
    } else {
      assert (a + b)[1..] == a[1..] + b;
      SnakeOfConcat(a[1..], b, false);
    }
  }

  predicate Small(w: string)
  {
    forall i :: 0 <= i < |w| ==> w[i] != '_' && !IsUpper(w[i])
  }

  /** A word of a field name: it starts with a small letter and holds no underscore and no capital. */
  predicate Word(w: string)
  {
    w != "" && IsLower(w[0]) && Small(w)
  }

  predicate Words(words: seq<string>)
  {
    forall i :: 0 <= i < |words| ==> Word(words[i])
  }

  /** Each word behind its underscore. */
  function Tail(words: seq<string>): string
  {
    if words == [] then "" else "_" + words[0] + Tail(words[1..])
  }

  function Title(w: string): string
  {
    if w == "" then "" else [ToUpper(w[0])] + w[1..]
  }

  function Titles(words: seq<string>): string
  {
    if words == [] then "" else Title(words[0]) + Titles(words[1..])
  }

  lemma {:induction false} SmallIsKept(w: string)
    requires Small(w)
    ensures forall leading :: SnakeFrom(w, leading) == w
    ensures CamelFrom(w, false) == w
  {
    if w != "" {
      SmallIsKept(w[1..]);
      assert [w[0]] + w[1..] == w;
    }
  }

  lemma WordToTitle(w: string)
    requires Word(w)
    ensures CamelFrom("_" + w, false) == Title(w)
  {
    SmallIsKept(w[1..]);
    assert ("_" + w)[1..] == w;
    assert CamelFrom(w, true) == Title(w);
  }

  lemma CapitalBack(c: char)
    requires IsLower(c)
    ensures SnakeFrom([ToUpper(c)], false) == "_" + [c]
  {
    var capital := ToUpper(c);
    assert IsUpper(capital) && ToLower(capital) == c;
    assert [capital][1..] == "" && "_" + [c] + "" == "_" + [c];
  }

  lemma Regroup(u: string, w: string)
    requires w != ""
    ensures u + [w[0]] + w[1..] == u + w
  {
  }

  lemma TitleToWord(w: string)
    requires Word(w)
    ensures SnakeFrom(Title(w), false) == "_" + w
  {
    var c := w[0];
    SmallIsKept(w[1..]);
    CapitalBack(c);
    Regroup("_", w);
    calc {
      SnakeFrom(Title(w), false);
      { SnakeOfConcat([ToUpper(c)], w[1..], false); }
      SnakeFrom([ToUpper(c)], false) + SnakeFrom(w[1..], false);
    }
  }

  lemma {:induction false} TailConverts(words: seq<string>)
    requires Words(words)
    ensures CamelFrom(Tail(words), false) == Titles(words) && SnakeFrom(Titles(words), false) == Tail(words)
  {
    if words != [] {
      var w := words[0];
      TailConverts(words[1..]);
      WordToTitle(w);
      TitleToWord(w);
      CamelOfConcat("_" + w, Tail(words[1..]), false);
      SnakeOfConcat(Title(w), Titles(words[1..]), false);
      assert ("_" + w)[|w|] == w[|w| - 1];
    }
  }

  /** Word by word: `node_list` is printed as `nodeList`, and `nodeList` is guessed to be `node_list`. */
  lemma WordByWord(w: string, words: seq<string>)
    requires Word(w) && Words(words)
    ensures Camel(w + Tail(words)) == w + Titles(words) && Snake(w + Titles(words)) == w + Tail(words)
  {
    SmallIsKept(w);
    TailConverts(words);
    CamelOfConcat(w, Tail(words), false);
    SnakeOfConcat(w, Titles(words), true);
  }

  // ----- inversion

  predicate NoUnderscore(key: string)
  {
    '_' !in key
  }

  lemma {:induction false} CamelHasNoUnderscore(name: string, capital: bool)
    ensures NoUnderscore(CamelFrom(name, capital))
  {
    if name != "" {
      CamelHasNoUnderscore(name[1..], name[0] == '_');
    }
  }

  lemma {:induction false} CamelOfCamel(key: string)
    requires NoUnderscore(key)
    ensures Camel(key) == key
  {
    if key != "" {
      CamelOfCamel(key[1..]);
    }
  }

  predicate Capitalised(key: string)
  {
    key != "" && IsUpper(key[0])
  }

  lemma {:induction false} CamelOfTail(key: string)
    requires NoUnderscore(key)
    ensures CamelFrom(SnakeFrom(key, false), false) == key
  {
    if key != "" {
      var c, rest := key[0], SnakeFrom(key[1..], false);
      CamelOfTail(key[1..]);
      assert [c] + key[1..] == key;
      if IsUpper(c) {
        var word := [ToLower(c)] + rest;
        assert SnakeFrom(key, false) == "_" + word;
        assert word[1..] == rest && ("_" + word)[1..] == word;
      } else {
        assert ([c] + rest)[1..] == rest;
      }
    }
  }

  /** The guess inverts the printed key exactly when that key does not start with a capital. */
  lemma CamelOfSnakeIff(key: string)
    requires NoUnderscore(key)
    ensures Camel(Snake(key)) == key <==> !Capitalised(key)
  {
    if key != "" {
      var head, rest := ToLower(key[0]), SnakeFrom(key[1..], false);
      CamelOfTail(key[1..]);
      assert Snake(key) == [head] + rest;
      assert ([head] + rest)[1..] == rest;
      assert Camel(Snake(key)) == [head] + key[1..];
      assert [key[0]] + key[1..] == key;
    }
  }

  // ----- lookup

  function IndexOf(names: seq<string>, name: string): (r: Option<nat>)
    ensures r.Some? ==> r.value < |names| && names[r.value] == name
    ensures r.None? ==> name !in names
  {
    if names == [] then None
    else if names[0] == name then Some(0)
    else
      match IndexOf(names[1..], name)
      case None => None
      case Some(i) => Some(i + 1)
  }

  function IndexOfCamel(names: seq<string>, key: string): (r: Option<nat>)
    ensures r.Some? ==> r.value < |names| && Camel(names[r.value]) == key
    ensures r.None? ==> forall i :: 0 <= i < |names| ==> Camel(names[i]) != key
  {
    if names == [] then None
    else if Camel(names[0]) == key then Some(0)
    else
      match IndexOfCamel(names[1..], key)
      case None => None
      case Some(i) => Some(i + 1)
  }

  /** The literal name first, then the snake_case guess, then every name's own camel form. */
  function FindField(names: seq<string>, key: string): (r: Option<nat>)
    ensures r.Some? ==> r.value < |names|
  {
    var literal := IndexOf(names, key);
    if literal.Some? then literal
    else
      var snake := Snake(key);
      var guess := if snake != key then IndexOf(names, snake) else None;
      if guess.Some? then guess else IndexOfCamel(names, key)
  }

  predicate NamesDistinct(names: seq<string>)
  {
    forall i, j :: 0 <= i < j < |names| ==> names[i] != names[j]
  }

  /** A field's own name, in whatever spelling, leads to that field. */
  lemma OwnNameFindsField(names: seq<string>, i: nat)
    requires NamesDistinct(names) && i < |names|
    ensures FindField(names, names[i]) == Some(i)
  {
    var found := IndexOf(names, names[i]);
    assert found.Some?;
  }

  /** A key is unknown exactly when it is no field's name, its guess is no field's name, and no field
      would be printed under it. */
  lemma UnknownKeyIff(names: seq<string>, key: string)
    ensures FindField(names, key).None?
       <==> key !in names && Snake(key) !in names && forall name :: name in names ==> Camel(name) != key
  {
  }

  /** A key that is no field's own name goes to the field its guess names, and only then to a field
      that would be printed under it. */
  lemma OtherKeysIff(names: seq<string>, key: string, i: nat)
    requires NamesDistinct(names) && CamelDistinct(names) && i < |names| && key !in names
    ensures FindField(names, key) == Some(i)
       <==> names[i] == Snake(key) || (Snake(key) !in names && Camel(names[i]) == key)
  {
  }

  /** No two fields print the same key. */
  predicate CamelDistinct(names: seq<string>)
  {
    forall i, j :: 0 <= i < j < |names| ==> Camel(names[i]) != Camel(names[j])
  }

  /** Another field owns the snake_case form of a key that starts with a capital and is not itself
      a field name. */
  predicate Shadowed(names: seq<string>, i: nat)
    requires i < |names|
  {
    var key := Camel(names[i]);
    Capitalised(key) && key != names[i] && Snake(key) in names
  }

  /** The key printed for a field leads back to that field exactly when it is not shadowed. */
  lemma PrintedKeyFindsFieldIff(names: seq<string>, i: nat)
    requires CamelDistinct(names) && i < |names|
    ensures FindField(names, Camel(names[i])) == Some(i) <==> !Shadowed(names, i)
  {
    var key := Camel(names[i]);
    CamelHasNoUnderscore(names[i], false);
    CamelOfCamel(key);
    CamelOfSnakeIff(key);
  }

  predicate PlainStart(name: string)
  {
    name != "" ==> name[0] != '_' && !IsUpper(name[0])
  }

  /** Names that start with neither an underscore nor a capital are never shadowed. */
  lemma PlainNamesAreFound(names: seq<string>)
    requires CamelDistinct(names) && forall name :: name in names ==> PlainStart(name)
    ensures forall i :: 0 <= i < |names| ==> FindField(names, Camel(names[i])) == Some(i)
  {
    forall i | 0 <= i < |names|
      ensures FindField(names, Camel(names[i])) == Some(i)
    {
      assert PlainStart(names[i]);
      PrintedKeyFindsFieldIff(names, i);
    }
  }

  /** A descriptor on which the printed key finds the wrong field. */
  lemma LeadingUnderscoreIsShadowed()
    ensures var names := ["_foo", "foo"];
            CamelDistinct(names) && FindField(names, Camel(names[0])) == Some(1)
  {
    var names := ["_foo", "foo"];
    CamelOfFoo();
    SnakeOfFoo();
    assert names[1..] == ["foo"];
  }

  lemma CamelOfFoo()
    ensures Camel("foo") == "foo" && Camel("_foo") == "Foo"
  {
    assert "_foo"[1..] == "foo" && "foo"[1..] == "oo" && "oo"[1..] == "o" && "o"[1..] == "";
    assert CamelFrom("oo", false) == "oo";
    assert CamelFrom("foo", true) == "Foo";
  }

  lemma SnakeOfFoo()
    ensures Snake("Foo") == "foo"
  {
    assert "Foo"[1..] == "oo" && "oo"[1..] == "o" && "o"[1..] == "";
    assert SnakeFrom("oo", false) == "oo";
  }
}
