/**
 * Translation lookup: the active language chosen from the stored setting,
 * a dotted-path walk through nested string tables, the fallback to English
 * and then to the key itself, and the `{{name}}` placeholder substitution.
 * The six tables are a parameter; their contents are not modelled.
 */
module Translation {
  import opened Builtins

  /** The six table keys. */
  datatype Language = En | Hi | Te | Es | Fr | De

  function Code(l: Language): string
  {
    match l
    case En => "en"
    case Hi => "hi"
    case Te => "te"
    case Es => "es"
    case Fr => "fr"
    case De => "de"
  }

  /** `language in translations ? language : 'en'`. */
  function CurrentLang(stored: string): (l: Language)
    ensures stored == Code(l) || (l == En && forall k :: Code(k) != stored)
  {
    if stored == "hi" then Hi
    else if stored == "te" then Te
    else if stored == "es" then Es
    else if stored == "fr" then Fr
    else if stored == "de" then De
    else En
  }

  /** Each table key selects its own table; every other stored value selects English. */
  lemma CurrentLangRoundTrip(l: Language, stored: string)
    ensures CurrentLang(Code(l)) == l
    ensures (forall k :: Code(k) != stored) ==> CurrentLang(stored) == En
  {
  }

  /** A translation table entry: a string or a nested table. */
  datatype Node = Text(s: string) | Table(entries: map<string, Node>)

  /** One step of `acc && acc[part]`. */
  function Step(acc: Option<Node>, part: string): Option<Node>
  {
    match acc
    case None => None
    case Some(Text(s)) => if s == "" then acc else None
    case Some(Table(m)) => if part in m then Some(m[part]) else None
  }

  /** `parts.reduce(step, acc)`. */
  function Walk(acc: Option<Node>, parts: seq<string>): Option<Node>
    decreases |parts|
  {
    if parts == [] then acc else Walk(Step(acc, parts[0]), parts[1..])
  }

  lemma WalkOne(acc: Option<Node>, part: string)
    ensures Walk(acc, [part]) == Step(acc, part)
  {
    assert [part][1..] == [];
  }

  /** `getNestedValue(obj, path)`. */
  function GetNestedValue(obj: Node, path: string): (r: Option<Node>)
    ensures '.' !in path ==> r == Step(Some(obj), path)
  {
    SplitWithoutSeparator(path, '.');
    WalkOne(Some(obj), path);
    Walk(Some(obj), Split(path, '.'))
  }

  /** A dotted key is looked up one segment at a time, when no segment itself holds a dot. */
  lemma KeyWalksItsSegments(obj: Node, parts: seq<string>)
    requires |parts| >= 1
    requires forall i :: 0 <= i < |parts| ==> '.' !in parts[i]
    ensures GetNestedValue(obj, Join(parts, ".")) == Walk(Some(obj), parts)
  {
    SplitJoin(parts, '.');
  }

  /** The walk along a concatenation is the walk along the second part from where the first ends. */
  lemma {:induction false} WalkAppend(acc: Option<Node>, a: seq<string>, b: seq<string>)
    ensures Walk(acc, a + b) == Walk(Walk(acc, a), b)
    decreases |a|
  {
    if a != [] {
      assert (a + b)[1..] == a[1..] + b;
      WalkAppend(Step(acc, a[0]), a[1..], b);
    } else {
      assert a + b == b;
    }
  }

  /** Once the walk is undefined it stays undefined. */
  lemma {:induction false} WalkFromNothing(parts: seq<string>)
    ensures Walk(None, parts) == None
    decreases |parts|
  {
    if parts != [] {
      WalkFromNothing(parts[1..]);
    }
  }

  /** A segment missing from the table reached so far makes the whole lookup undefined. */
  lemma MissingSegmentIsUndefined(acc: Option<Node>, before: seq<string>, part: string, after: seq<string>,
                                  m: map<string, Node>)
    requires Walk(acc, before) == Some(Table(m))
    requires part !in m
    ensures Walk(acc, before + [part] + after) == None
  {
    WalkAppend(acc, before, [part] + after);
    assert before + [part] + after == before + ([part] + after);
    WalkFromNothing(after);
  }

  /** A two-segment key reads the entry of the nested table. */
  lemma TwoSegmentLookup(outer: string, inner: string, text: string)
    requires '.' !in outer && '.' !in inner
    ensures GetNestedValue(Table(map[outer := Table(map[inner := Text(text)])]), outer + "." + inner)
            == Some(Text(text))
  {
    var obj := Table(map[outer := Table(map[inner := Text(text)])]);
    SplitJoin([outer, inner], '.');
    assert Join([outer, inner], ".") == outer + "." + inner;
    var parts := [outer, inner];
    assert parts[1..] == [inner] && [inner][1..] == [];
    assert Step(Some(obj), outer) == Some(Table(map[inner := Text(text)]));
    assert Walk(Some(obj), parts) == Walk(Some(Table(map[inner := Text(text)])), [inner]);
  }

  /** `!translation` fails: a string that is present and not empty, or a nested table. */
  predicate Truthy(v: Option<Node>)
  {
    v.Some? && (v.value.Table? || v.value.s != "")
  }

  /** The lookup in the active table, then in English; `None` when neither has it. */
  function Resolve(tables: Language -> Node, lang: Language, key: string): (r: Option<Node>)
    ensures r.None? || Truthy(r)
  {
    var own := GetNestedValue(tables(lang), key);
    if Truthy(own) then own
    else
      var en := GetNestedValue(tables(En), key);
      if Truthy(en) then en else None
  }

  /** The fallback chain: the active table's value when usable, else English's, else nothing. */
  lemma ResolveFallsBack(tables: Language -> Node, lang: Language, key: string)
    ensures Truthy(GetNestedValue(tables(lang), key)) ==>
              Resolve(tables, lang, key) == GetNestedValue(tables(lang), key)
    ensures !Truthy(GetNestedValue(tables(lang), key)) && Truthy(GetNestedValue(tables(En), key)) ==>
              Resolve(tables, lang, key) == GetNestedValue(tables(En), key)
    ensures Resolve(tables, lang, key).None? <==>
              !Truthy(GetNestedValue(tables(lang), key)) && !Truthy(GetNestedValue(tables(En), key))
  {
  }

  // ---------------------------------------------------------------------------
  // Placeholder substitution

  /** `{{name}}`. */
  function Placeholder(name: string): (p: string)
    ensures |p| >= 4 && p[0] == '{'
  {
    "{{" + name + "}}"
  }

  /** `s.replace(new RegExp(pat, 'g'), rep)` for a pattern without metacharacters: left to right, non-overlapping. */
  function ReplaceAll(s: string, pat: string, rep: string): (r: string)
    requires |pat| > 0
    ensures |rep| == |pat| ==> |r| == |s|
    ensures rep == pat ==> r == s
    decreases |s|
  {
    if |s| < |pat| then s
    else if s[..|pat|] == pat then
      assert s == s[..|pat|] + s[|pat|..];
      rep + ReplaceAll(s[|pat|..], pat, rep)
    else
      assert s == [s[0]] + s[1..];
      [s[0]] + ReplaceAll(s[1..], pat, rep)
  }

  /** Text that cannot start the pattern is copied; the next occurrence is replaced. */
  lemma {:induction false} ReplaceAfterPlainText(a: string, pat: string, b: string, rep: string)
    requires |pat| > 0 && pat[0] !in a
    ensures ReplaceAll(a + pat + b, pat, rep) == a + rep + ReplaceAll(b, pat, rep)
    decreases |a|
  {
    var s := a + pat + b;
    if a == [] {
      assert s == pat + b;
      assert s[..|pat|] == pat && s[|pat|..] == b;
    } else {
      assert s[0] == a[0];
      assert s[..|pat|] != pat by {
        assert s[..|pat|][0] == s[0];
        assert a[0] in a;
      }
      assert s[1..] == a[1..] + pat + b;
      assert pat[0] !in a[1..] by {
        assert forall i :: 0 <= i < |a[1..]| ==> a[1..][i] == a[i + 1];
      }
      ReplaceAfterPlainText(a[1..], pat, b, rep);
      calc {
        ReplaceAll(s, pat, rep);
        [s[0]] + ReplaceAll(s[1..], pat, rep);
        [a[0]] + (a[1..] + rep + ReplaceAll(b, pat, rep));
        { assert a == [a[0]] + a[1..]; }
        a + rep + ReplaceAll(b, pat, rep);
      }
    }
  }

  /** A string in which the pattern cannot start is unchanged. */
  lemma {:induction false} ReplaceInPlainText(s: string, pat: string, rep: string)
    requires |pat| > 0 && pat[0] !in s
    ensures ReplaceAll(s, pat, rep) == s
    decreases |s|
  {
    if |s| >= |pat| {
      assert s[..|pat|][0] == s[0];
      ReplaceInPlainText(s[1..], pat, rep);
      assert s == [s[0]] + s[1..];
    }
  }

  /** The options replaced one key after another, in key order. */
  function ApplyOptions(s: string, options: seq<(string, string)>): (r: string)
    ensures (forall i :: 0 <= i < |options| ==> options[i].1 == Placeholder(options[i].0)) ==> r == s
    decreases |options|
  {
    if options == [] then s
    else ApplyOptions(ReplaceAll(s, Placeholder(options[0].0), options[0].1), options[1..])
  }

  /** Options given in two parts are applied part after part. */
  lemma {:induction false} ApplyOptionsAppend(s: string, a: seq<(string, string)>, b: seq<(string, string)>)
    ensures ApplyOptions(s, a + b) == ApplyOptions(ApplyOptions(s, a), b)
    decreases |a|
  {
    if a != [] {
      assert (a + b)[1..] == a[1..] + b;
      ApplyOptionsAppend(ReplaceAll(s, Placeholder(a[0].0), a[0].1), a[1..], b);
    } else {
      assert a + b == b;
    }
  }

  /** A string with no placeholder is unaffected by any options. */
  lemma {:induction false} NoPlaceholderIsUnaffected(s: string, options: seq<(string, string)>)
    requires '{' !in s
    ensures ApplyOptions(s, options) == s
    decreases |options|
  {
    if options != [] {
      ReplaceInPlainText(s, Placeholder(options[0].0), options[0].1);
      NoPlaceholderIsUnaffected(s, options[1..]);
    }
  }

  /** Every occurrence of a key's placeholder is replaced. */
  lemma PlaceholderTwice(a: string, b: string, c: string, name: string, value: string)
    requires '{' !in a && '{' !in b && '{' !in c
    ensures ApplyOptions(a + Placeholder(name) + b + Placeholder(name) + c, [(name, value)])
            == a + value + b + value + c
  {
    var p := Placeholder(name);
    assert a + p + b + p + c == a + p + (b + p + c);
    ReplaceAfterPlainText(a, p, b + p + c, value);
    ReplaceAfterPlainText(b, p, c, value);
    ReplaceInPlainText(c, p, value);
  }

  // ---------------------------------------------------------------------------
  // t(key, options)

  /** What `t` gives back; `TypeError` is calling `replace` on a nested table. */
  datatype Outcome = Value(v: Node) | TypeError

  /** `t(key, options)`; an absent `options` is `None`. */
  function Translate(tables: Language -> Node, stored: string, key: string,
                     options: Option<seq<(string, string)>>): (o: Outcome)
    ensures Resolve(tables, CurrentLang(stored), key).None? ==> o == Value(Text(key))
    ensures o.TypeError? <==>
              Resolve(tables, CurrentLang(stored), key).Some? && Resolve(tables, CurrentLang(stored), key).value.Table? &&
              options.Some? && options.value != []
    ensures Resolve(tables, CurrentLang(stored), key).Some? && (options.None? || options.value == []) ==>
              o == Value(Resolve(tables, CurrentLang(stored), key).value)
    ensures Resolve(tables, CurrentLang(stored), key).Some? && Resolve(tables, CurrentLang(stored), key).value.Text? &&
            options.Some? && options.value != [] ==>
              o == Value(Text(ApplyOptions(Resolve(tables, CurrentLang(stored), key).value.s, options.value)))
  {
    match Resolve(tables, CurrentLang(stored), key)
    case None => Value(Text(key))
    case Some(n) =>
      if options.None? || options.value == [] then Value(n)
      else if n.Text? then Value(Text(ApplyOptions(n.s, options.value)))
      else TypeError
  }

  /** A key found nowhere is returned unchanged, whatever the options. */
  lemma MissingKeyIsReturned(tables: Language -> Node, stored: string, key: string,
                             options: Option<seq<(string, string)>>)
    requires !Truthy(GetNestedValue(tables(CurrentLang(stored)), key))
    requires !Truthy(GetNestedValue(tables(En), key))
    ensures Translate(tables, stored, key, options) == Value(Text(key))
  {
  }

  /** Without options the found text is returned unmodified. */
  lemma NoOptionsNoChange(tables: Language -> Node, stored: string, key: string, text: string)
    requires Resolve(tables, CurrentLang(stored), key) == Some(Text(text))
    ensures Translate(tables, stored, key, None) == Value(Text(text))
  {
  }

  /** A found text without placeholders is returned unmodified whatever the options. */
  lemma PlainTextIgnoresOptions(tables: Language -> Node, stored: string, key: string, text: string,
                                options: seq<(string, string)>)
    requires Resolve(tables, CurrentLang(stored), key) == Some(Text(text))
    requires '{' !in text
    ensures Translate(tables, stored, key, Some(options)) == Value(Text(text))
  {
    NoPlaceholderIsUnaffected(text, options);
  }

  /** The body of `t`, substituting the options in a loop. */
  method T(tables: Language -> Node, stored: string, key: string,
           options: Option<seq<(string, string)>>) returns (r: Outcome)
    ensures r == Translate(tables, stored, key, options)
  {
    var currentLang := CurrentLang(stored);
    var translation := GetNestedValue(tables(currentLang), key);
    if !Truthy(translation) {
      translation := GetNestedValue(tables(En), key);
    }
    if !Truthy(translation) {
      return Value(Text(key));
    }
    var node := translation.value;
    if options.None? || options.value == [] {
      return Value(node);
    }
    if node.Table? {
      return TypeError;
    }
    var opts := options.value;
    var text := node.s;
    for i := 0 to |opts|
      invariant ApplyOptions(text, opts[i..]) == ApplyOptions(node.s, opts)
    {
      assert opts[i..][1..] == opts[i + 1..];
      text := ReplaceAll(text, Placeholder(opts[i].0), opts[i].1);
    }
    assert opts[|opts|..] == [];
    r := Value(Text(text));
  }
}
