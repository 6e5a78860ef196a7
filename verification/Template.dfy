/** CmsService.renderEmailTemplate: placeholders replaced one variable at a time. */
module Template {
  import opened Wrappers

  // ── String.prototype.replace with a global literal pattern ───────────────────

  /** What a replacement text stands for: `$$`, `$&`, `` $` `` and `$'` are special. */
  function Expand(value: string, before: string, matched: string, after: string): string {
    if |value| < 2 || value[0] != '$' then
      if value == [] then "" else [value[0]] + Expand(value[1..], before, matched, after)
    else if value[1] == '$' then "$" + Expand(value[2..], before, matched, after)
    else if value[1] == '&' then matched + Expand(value[2..], before, matched, after)
    else if value[1] == '`' then before + Expand(value[2..], before, matched, after)
    else if value[1] == '\'' then after + Expand(value[2..], before, matched, after)
    else "$" + Expand(value[1..], before, matched, after)
  }

  /** Replaces from left to right in `rest`; `before` is the part of the subject already passed. */
  function Replace(before: string, rest: string, pattern: string, value: string): string
    requires pattern != []
    decreases |rest|
  {
    if rest == [] then ""
    else if pattern <= rest then
      Expand(value, before, pattern, rest[|pattern|..]) + Replace(before + pattern, rest[|pattern|..], pattern, value)
    else [rest[0]] + Replace(before + [rest[0]], rest[1..], pattern, value)
  }

  function Placeholder(name: string): string {
    "{{" + name + "}}"
  }

  datatype Variable = Variable(name: string, value: string)

  /** The loop over `Object.entries(variables)`. */
  function ReplaceAll(html: string, variables: seq<Variable>): string {
    if variables == [] then html
    else
      var v := variables[|variables| - 1];
      Replace("", ReplaceAll(html, variables[..|variables| - 1]), Placeholder(v.name), v.value)
  }

  method RenderEmailTemplate(template: Option<string>, variables: seq<Variable>) returns (html: Option<string>)
    ensures html == if template.None? then None else Some(ReplaceAll(template.value, variables))
  {
    if template == None {
      return None;
    }
    var body := template.value;
    var i := 0;
    while i < |variables|
      invariant i <= |variables| && body == ReplaceAll(template.value, variables[..i])
    {
      body := Replace("", body, Placeholder(variables[i].name), variables[i].value);
      assert variables[..i + 1][..i] == variables[..i];
      i := i + 1;
    }
    assert variables[..i] == variables;
    return Some(body);
  }

  // ── Templates as pieces ──────────────────────────────────────────────────────

  datatype Piece = Text(text: string) | Hole(name: string)

  predicate IsIdentifier(s: string) {
    s != [] && forall i :: 0 <= i < |s| ==> 'a' <= s[i] <= 'z' || 'A' <= s[i] <= 'Z' || '0' <= s[i] <= '9' || s[i] == '_'
  }

  /** Each opening brace is followed, in the same text, by something else: no placeholder can start or form there. */
  predicate Harmless(s: string) {
    forall i :: 0 <= i < |s| && s[i] == '{' ==> i + 1 < |s| && s[i + 1] != '{'
  }

  /** No dollar sign is followed by one of the characters that make it special. */
  predicate NoSpecial(s: string) {
    forall i :: 0 <= i < |s| - 1 && s[i] == '$' ==> s[i + 1] != '$' && s[i + 1] != '&' && s[i + 1] != '`' && s[i + 1] != '\''
  }

  predicate PieceOk(p: Piece) {
    match p
    case Text(text) => Harmless(text)
    case Hole(name) => IsIdentifier(name)
  }

  predicate PiecesOk(ps: seq<Piece>) {
    forall i :: 0 <= i < |ps| ==> PieceOk(ps[i])
  }

  function Print(ps: seq<Piece>): string {
    if ps == [] then ""
    else (match ps[0] case Text(text) => text case Hole(name) => Placeholder(name)) + Print(ps[1..])
  }

  /** The two texts agree as far as both go. */
  predicate Comparable(s: string, t: string) {
    s <= t || t <= s
  }

  /** No placeholder of that name is in the text, and none is begun at its end. */
  predicate Quiet(s: string, name: string) {
    forall i :: 0 <= i < |s| ==> !Comparable(s[i..], Placeholder(name))
  }

  /** Quiet for every name but the one the value is substituted for. */
  ghost predicate Inert(value: string, name: string) {
    forall other: string :: IsIdentifier(other) && other != name ==> Quiet(value, other)
  }

  ghost predicate VariableOk(v: Variable) {
    IsIdentifier(v.name) && Inert(v.value, v.name) && NoSpecial(v.value)
  }

  ghost predicate VariablesOk(variables: seq<Variable>) {
    && (forall i :: 0 <= i < |variables| ==> VariableOk(variables[i]))
    && (forall i, j :: 0 <= i < j < |variables| ==> variables[i].name != variables[j].name)
  }

  /** The value of a placeholder, if there is a variable of that name. */
  function Lookup(variables: seq<Variable>, name: string): Option<string> {
    if variables == [] then None
    else
      var v := variables[|variables| - 1];
      if v.name == name then Some(v.value) else Lookup(variables[..|variables| - 1], name)
  }

  function Fill(p: Piece, variables: seq<Variable>): Piece {
    match p
    case Text(_) => p
    case Hole(name) => match Lookup(variables, name) case Some(value) => Text(value) case None => p
  }

  /** All placeholders at once; those without a variable stay. */
  function Substitute(ps: seq<Piece>, variables: seq<Variable>): seq<Piece> {
    seq(|ps|, i requires 0 <= i < |ps| => Fill(ps[i], variables))
  }

  // ── One replacement ──────────────────────────────────────────────────────────

  lemma {:induction false} ExpandPlain(value: string, before: string, matched: string, after: string)
    requires NoSpecial(value)
    ensures Expand(value, before, matched, after) == value
  {
    if value != [] {
      assert NoSpecial(value[1..]);
      ExpandPlain(value[1..], before, matched, after);
      assert value == [value[0]] + value[1..];
    }
  }

  /** How many opening braces a text has. */
  function Braces(s: string): nat {
    if s == [] then 0 else (if s[0] == '{' then 1 else 0) + Braces(s[1..])
  }

  lemma {:induction false} BracesConcat(s: string, t: string)
    ensures Braces(s + t) == Braces(s) + Braces(t)
  {
    if s == [] {
      assert s + t == t;
    } else {
      assert (s + t)[1..] == s[1..] + t;
      BracesConcat(s[1..], t);
    }
  }

  lemma BracesOfPlaceholder(name: string)
    ensures Braces(Placeholder(name)) >= 2
  {
    assert Placeholder(name)[1..] == "{" + name + "}}" && Placeholder(name)[1..][1..] == name + "}}";
  }

  /** What expanding did not lose: braces are never lost, and without new ones length is, unless nothing is special. */
  predicate Lossy(value: string, expanded: string) {
    && Braces(expanded) >= Braces(value)
    && (Braces(expanded) == Braces(value) ==>
          |expanded| <= |value| && (|expanded| == |value| ==> NoSpecial(value)))
  }

  lemma CopiedChar(c: char, value: string, expanded: string)
    requires Lossy(value, expanded) && (c == '$' && value != [] ==> value[0] !in {'$', '&', '`', '\''})
    ensures Lossy([c] + value, [c] + expanded)
  {
    assert ([c] + value)[1..] == value && ([c] + expanded)[1..] == expanded;
    forall i | NoSpecial(value) && 0 < i < |value| && ([c] + value)[i] == '$'
      ensures ([c] + value)[i + 1] !in {'$', '&', '`', '\''}
    {
      assert value[i - 1] == '$';
    }
  }

  /** At a template that is one placeholder, `$&` adds braces and the other special pairs lose length. */
  lemma {:induction false} ExpandLoses(value: string, name: string)
    ensures Lossy(value, Expand(value, "", Placeholder(name), ""))
    decreases |value|
  {
    var m := Placeholder(name);
    if |value| >= 2 && value[0] == '$' && value[1] in {'$', '&', '`', '\''} {
      var rest := value[2..];
      ExpandLoses(rest, name);
      assert value[1..][1..] == rest && Braces(value) == Braces(rest);
      var e := Expand(rest, "", m, "");
      assert ("$" + e)[1..] == e && "" + e == e;
      BracesConcat(m, e);
      BracesOfPlaceholder(name);
    } else if value != [] {
      ExpandLoses(value[1..], name);
      assert value == [value[0]] + value[1..];
      CopiedChar(value[0], value[1..], Expand(value[1..], "", m, ""));
      assert "$" == ['$'];
    }
  }

  /**
    Whatever the placeholder: a value is inserted as it is, wherever the placeholder stands, exactly
    when it has no special pair; the template that is the placeholder alone already tells.
  */
  lemma InsertedVerbatim(name: string, value: string)
    ensures (forall before, after: string :: Expand(value, before, Placeholder(name), after) == value) <==> NoSpecial(value)
    ensures ReplaceAll(Placeholder(name), [Variable(name, value)]) == value <==> NoSpecial(value)
  {
    var m := Placeholder(name);
    OnlyPlaceholder(name, value);
    if NoSpecial(value) {
      forall before, after: string
        ensures Expand(value, before, m, after) == value
      {
        ExpandPlain(value, before, m, after);
      }
    } else {
      ExpandLoses(value, name);
    }
  }

  lemma OnlyPlaceholder(name: string, value: string)
    ensures ReplaceAll(Placeholder(name), [Variable(name, value)]) == Expand(value, "", Placeholder(name), "")
  {
    var m, v := Placeholder(name), Variable(name, value);
    assert [v][..0] == [] && m[|m|..] == "" && ReplaceAll(m, []) == m;
    assert ReplaceAll(m, [v]) == Replace("", m, m, value);
    var e := Expand(value, "", m, "");
    assert Replace("", m, m, value) == e + Replace("" + m, "", m, value) == e + "" == e;
  }

  lemma CopyOne(before: string, s: string, n: string, value: string)
    requires s != [] && !(Placeholder(n) <= s)
    ensures Replace(before, s, Placeholder(n), value) == [s[0]] + Replace(before + [s[0]], s[1..], Placeholder(n), value)
  {
  }

  /** Text that offers no placeholder of the name where the replacement looks is copied. */
  lemma {:induction false} CopyText(before: string, text: string, rest: string, name: string, value: string)
    requires forall i :: 0 <= i < |text| ==> !(Placeholder(name) <= text[i..] + rest)
    ensures Replace(before, text + rest, Placeholder(name), value) == text + Replace(before + text, rest, Placeholder(name), value)
    decreases |text|
  {
    if text == [] {
      assert text + rest == rest && before + text == before;
    } else {
      var c, more := text[0], text[1..];
      assert text[0..] + rest == text + rest;
      CopyOne(before, text + rest, name, value);
      forall i | 0 <= i < |more|
        ensures !(Placeholder(name) <= more[i..] + rest)
      {
        assert more[i..] == text[i + 1..];
      }
      CopyText(before + [c], more, rest, name, value);
      assert (text + rest)[1..] == more + rest && before + [c] + more == before + text && text == [c] + more;
    }
  }

  lemma BothPrefixes(p: string, t: string, rest: string)
    requires p <= t + rest
    ensures Comparable(t, p)
  {
    assert t <= t + rest;
    if |p| <= |t| {
      assert forall i :: 0 <= i < |p| ==> p[i] == (t + rest)[i] == t[i];
    } else {
      assert forall i :: 0 <= i < |t| ==> t[i] == (t + rest)[i] == p[i];
    }
  }

  lemma CopyQuiet(before: string, text: string, rest: string, name: string, value: string)
    requires Quiet(text, name)
    ensures Replace(before, text + rest, Placeholder(name), value) == text + Replace(before + text, rest, Placeholder(name), value)
  {
    forall i | 0 <= i < |text|
      ensures !(Placeholder(name) <= text[i..] + rest)
    {
      if Placeholder(name) <= text[i..] + rest {
        BothPrefixes(Placeholder(name), text[i..], rest);
      }
    }
    CopyText(before, text, rest, name, value);
  }

  lemma HarmlessIsQuiet(text: string, name: string)
    requires Harmless(text)
    ensures Quiet(text, name)
  {
    var p := Placeholder(name);
    forall i | 0 <= i < |text|
      ensures !Comparable(text[i..], p)
    {
      assert text[i..][0] == text[i] && p[0] == '{' && p[1] == '{';
      assert i + 1 < |text| ==> text[i..][1] == text[i + 1];
    }
  }

  lemma NameIsRead(m: string, n: string, rest: string)
    requires IsIdentifier(m) && IsIdentifier(n)
    ensures Placeholder(n) <= Placeholder(m) + rest ==> m == n
  {
    var s, p := Placeholder(m) + rest, Placeholder(n);
    assert s[|m| + 2] == '}' && p[|n| + 2] == '}';
    assert |m| < |n| ==> p[|m| + 2] == n[|m|];
    assert |n| < |m| ==> s[|n| + 2] == m[|n|];
    assert s[2..|m| + 2] == m && p[2..|n| + 2] == n;
    if p <= s {
      assert p[2..|n| + 2] == s[2..|n| + 2];
    }
  }

  /** Nothing inside a placeholder looks like one of another name. */
  lemma NoneInside(m: string, n: string, rest: string, i: nat)
    requires IsIdentifier(m) && IsIdentifier(n) && m != n && i < |Placeholder(m)|
    ensures !(Placeholder(n) <= Placeholder(m)[i..] + rest)
  {
    var p, t := Placeholder(m), Placeholder(m)[i..] + rest;
    if i == 0 {
      assert t == p + rest;
      NameIsRead(m, n, rest);
    } else {
      assert Placeholder(n)[0] == '{' && Placeholder(n)[1] == '{';
      assert t[0] == p[i] && (i == 1 ==> t[1] == p[2] == m[0]) && (i > 1 ==> p[i] != '{');
    }
  }

  /** A placeholder of another name is copied whole. */
  lemma CopyOther(before: string, m: string, rest: string, n: string, value: string)
    requires IsIdentifier(m) && IsIdentifier(n) && m != n
    ensures Replace(before, Placeholder(m) + rest, Placeholder(n), value)
         == Placeholder(m) + Replace(before + Placeholder(m), rest, Placeholder(n), value)
  {
    forall i | 0 <= i < |Placeholder(m)|
      ensures !(Placeholder(n) <= Placeholder(m)[i..] + rest)
    {
      NoneInside(m, n, rest, i);
    }
    CopyText(before, Placeholder(m), rest, n, value);
  }

  lemma ReplaceHere(before: string, rest: string, name: string, value: string)
    requires NoSpecial(value)
    ensures Replace(before, Placeholder(name) + rest, Placeholder(name), value)
         == value + Replace(before + Placeholder(name), rest, Placeholder(name), value)
  {
    var s := Placeholder(name) + rest;
    assert s[|Placeholder(name)|..] == rest;
    ExpandPlain(value, before, Placeholder(name), rest);
  }

  function FillOne(ps: seq<Piece>, v: Variable): seq<Piece> {
    seq(|ps|, i requires 0 <= i < |ps| => if ps[i] == Hole(v.name) then Text(v.value) else ps[i])
  }

  /** Texts that are quiet for the name, and holes. */
  predicate QuietPieces(ps: seq<Piece>, name: string) {
    forall i :: 0 <= i < |ps| ==>
      match ps[i]
      case Text(text) => Quiet(text, name)
      case Hole(hole) => IsIdentifier(hole)
  }

  /** One replacement over the printed template fills the holes of that name, and nothing else. */
  lemma {:induction false} ReplaceFillsOne(before: string, ps: seq<Piece>, v: Variable)
    requires QuietPieces(ps, v.name) && IsIdentifier(v.name) && NoSpecial(v.value)
    ensures Replace(before, Print(ps), Placeholder(v.name), v.value) == Print(FillOne(ps, v))
    decreases |ps|
  {
    if ps != [] {
      var rest := Print(ps[1..]);
      assert FillOne(ps, v)[1..] == FillOne(ps[1..], v);
      match ps[0]
      case Text(text) =>
        CopyQuiet(before, text, rest, v.name, v.value);
        ReplaceFillsOne(before + text, ps[1..], v);
      case Hole(name) =>
        if name == v.name {
          ReplaceHere(before, rest, name, v.value);
        } else {
          CopyOther(before, name, rest, v.name, v.value);
        }
        ReplaceFillsOne(before + Placeholder(name), ps[1..], v);
    }
  }

  // ── All replacements ─────────────────────────────────────────────────────────

  lemma {:induction false} LookupOk(variables: seq<Variable>, name: string)
    requires VariablesOk(variables)
    ensures Lookup(variables, name).Some? ==> Inert(Lookup(variables, name).value, name)
    ensures Lookup(variables, name).Some? <==> exists i :: 0 <= i < |variables| && variables[i].name == name
    ensures forall i :: 0 <= i < |variables| && variables[i].name == name ==> Lookup(variables, name) == Some(variables[i].value)
  {
    if variables != [] {
      LookupOk(variables[..|variables| - 1], name);
    }
  }

  /** Filling one more variable after the others is filling them all. */
  lemma FillLast(ps: seq<Piece>, variables: seq<Variable>)
    requires PiecesOk(ps) && VariablesOk(variables) && variables != []
    ensures var n := |variables| - 1;
      FillOne(Substitute(ps, variables[..n]), variables[n]) == Substitute(ps, variables)
  {
    var n := |variables| - 1;
    forall i | 0 <= i < |ps|
      ensures FillOne(Substitute(ps, variables[..n]), variables[n])[i] == Fill(ps[i], variables)
    {
      if ps[i].Hole? {
        LookupOk(variables[..n], ps[i].name);
      }
    }
  }

  /** What other variables put in is quiet for a name that is still to come. */
  lemma SubstituteQuiet(ps: seq<Piece>, variables: seq<Variable>, name: string)
    requires PiecesOk(ps) && VariablesOk(variables) && IsIdentifier(name)
    requires forall i :: 0 <= i < |variables| ==> variables[i].name != name
    ensures QuietPieces(Substitute(ps, variables), name)
  {
    forall i | 0 <= i < |ps|
      ensures match Fill(ps[i], variables)
        case Text(text) => Quiet(text, name)
        case Hole(hole) => IsIdentifier(hole)
    {
      match ps[i]
      case Text(text) => HarmlessIsQuiet(text, name);
      case Hole(hole) => LookupOk(variables, hole);
    }
  }

  /** Replacing variable by variable over the text is substituting all at once in the template. */
  lemma {:induction false} SequentialIsSimultaneous(ps: seq<Piece>, variables: seq<Variable>)
    requires PiecesOk(ps) && VariablesOk(variables)
    ensures ReplaceAll(Print(ps), variables) == Print(Substitute(ps, variables))
  {
    if variables == [] {
      assert Substitute(ps, []) == ps;
    } else {
      var n := |variables| - 1;
      SequentialIsSimultaneous(ps, variables[..n]);
      SubstituteQuiet(ps, variables[..n], variables[n].name);
      ReplaceFillsOne("", Substitute(ps, variables[..n]), variables[n]);
      FillLast(ps, variables);
    }
  }

  /** The order of the variables does not matter. */
  lemma OrderIrrelevant(ps: seq<Piece>, variables: seq<Variable>, other: seq<Variable>)
    requires PiecesOk(ps) && VariablesOk(variables) && VariablesOk(other)
    requires forall v :: v in variables <==> v in other
    ensures ReplaceAll(Print(ps), variables) == ReplaceAll(Print(ps), other)
  {
    SequentialIsSimultaneous(ps, variables);
    SequentialIsSimultaneous(ps, other);
    forall i | 0 <= i < |ps|
      ensures Fill(ps[i], variables) == Fill(ps[i], other)
    {
      if ps[i].Hole? {
        LookupOk(variables, ps[i].name);
        LookupOk(other, ps[i].name);
        if j :| 0 <= j < |variables| && variables[j].name == ps[i].name {
          assert variables[j] in other;
        }
        if j :| 0 <= j < |other| && other[j].name == ps[i].name {
          assert other[j] in variables;
        }
      }
    }
    assert Substitute(ps, variables) == Substitute(ps, other);
  }

  // ── What the special pairs do ────────────────────────────────────────────────

  /** One placeholder between texts that are quiet for it: the value is expanded in its place. */
  lemma RenderedOnce(pre: string, name: string, post: string, value: string)
    requires Quiet(pre, name) && Quiet(post, name)
    ensures ReplaceAll(pre + Placeholder(name) + post, [Variable(name, value)])
         == pre + Expand(value, pre, Placeholder(name), post) + post
  {
    var p, v := Placeholder(name), Variable(name, value);
    var html := pre + (p + post);
    assert pre + p + post == html && "" + pre == pre && (p + post)[|p|..] == post && post + "" == post;
    assert [v][..0] == [] && ReplaceAll(html, []) == html;
    CopyQuiet("", pre, p + post, name, value);
    CopyQuiet(pre + p, post, "", name, value);
    assert Replace(pre, p + post, p, value) == Expand(value, pre, p, post) + Replace(pre + p, post, p, value);
  }

  /** `$$` gives a dollar sign, `$&` the placeholder, and the other two what stands before and after it. */
  lemma SpecialPairs(pre: string, name: string, post: string)
    requires Quiet(pre, name) && Quiet(post, name)
    ensures var html := pre + Placeholder(name) + post;
      && ReplaceAll(html, [Variable(name, "$$")]) == pre + "$" + post
      && ReplaceAll(html, [Variable(name, "$&")]) == html
      && ReplaceAll(html, [Variable(name, "$`")]) == pre + pre + post
      && ReplaceAll(html, [Variable(name, "$'")]) == pre + post + post
  {
    RenderedOnce(pre, name, post, "$$");
    RenderedOnce(pre, name, post, "$&");
    RenderedOnce(pre, name, post, "$`");
    RenderedOnce(pre, name, post, "$'");
    PairsAlone(pre, Placeholder(name), post);
  }

  lemma PairsAlone(before: string, matched: string, after: string)
    ensures Expand("$$", before, matched, after) == "$" && Expand("$&", before, matched, after) == matched
    ensures Expand("$`", before, matched, after) == before && Expand("$'", before, matched, after) == after
  {
    assert Expand("", before, matched, after) == "";
    assert matched + "" == matched && before + "" == before && after + "" == after;
  }

  // ── Exactly when the order does not matter ───────────────────────────────────

  /** Both orders of two variables render the template the same. */
  predicate OrdersAgree(ps: seq<Piece>, v: Variable, other: Variable) {
    ReplaceAll(Print(ps), [v, other]) == ReplaceAll(Print(ps), [other, v])
  }

  /** Every well-formed template, with every well-behaved second variable. */
  ghost predicate NeverOrderSensitive(v: Variable) {
    forall ps, other :: PiecesOk(ps) && VariableOk(other) && other.name != v.name ==> OrdersAgree(ps, v, other)
  }

  lemma ReplaceTwo(html: string, v: Variable, other: Variable)
    ensures ReplaceAll(html, [v, other])
         == Replace("", Replace("", html, Placeholder(v.name), v.value), Placeholder(other.name), other.value)
  {
    Appended(html, v, other);
  }

  lemma InertOrdersAgree(ps: seq<Piece>, v: Variable, other: Variable)
    requires PiecesOk(ps) && VariableOk(v) && VariableOk(other) && other.name != v.name
    ensures OrdersAgree(ps, v, other)
  {
    OrderIrrelevant(ps, [v, other], [other, v]);
  }

  /** Replacing by nothing shortens a text in which the placeholder occurs. */
  lemma {:induction false} Shortens(before: string, s: string, name: string, k: nat)
    requires k <= |s| && Placeholder(name) <= s[k..]
    ensures |Replace(before, s, Placeholder(name), "")| < |s|
    decreases |s|
  {
    var p := Placeholder(name);
    if p <= s {
      NotLonger(before + p, s[|p|..], name);
    } else {
      assert s[1..][k - 1..] == s[k..];
      Shortens(before + [s[0]], s[1..], name, k - 1);
    }
  }

  lemma {:induction false} NotLonger(before: string, s: string, name: string)
    ensures |Replace(before, s, Placeholder(name), "")| <= |s|
    decreases |s|
  {
    var p := Placeholder(name);
    if s != [] {
      if p <= s {
        NotLonger(before + p, s[|p|..], name);
      } else {
        NotLonger(before + [s[0]], s[1..], name);
      }
    }
  }

  /** The rest of a placeholder after a begun part is harmless. */
  lemma RestHarmless(name: string, k: nat)
    requires IsIdentifier(name) && 0 < k <= |Placeholder(name)|
    ensures Harmless(Placeholder(name)[k..])
  {
    var p := Placeholder(name);
    assert p[1] == '{' && forall i :: 2 <= i < |p| ==> p[i] != '{';
    var q := p[k..];
    assert forall i :: 0 <= i < |q| ==> q[i] == p[k + i];
  }

  /** A harmless text that completes what the value begins. */
  lemma Completed(value: string, name: string, i: nat) returns (q: string)
    requires IsIdentifier(name) && i < |value| && Comparable(value[i..], Placeholder(name))
    ensures Harmless(q) && i <= |value + q| && Placeholder(name) <= (value + q)[i..]
  {
    var p, begun := Placeholder(name), value[i..];
    q := "";
    if |begun| < |p| {
      q := p[|begun|..];
      RestHarmless(name, |begun|);
      assert begun + q == p;
    }
    assert (value + q)[i..] == begun + q;
  }

  /** A value with a placeholder of another name in it, or begun at its end, meets a template where the order matters. */
  lemma NotQuietMatters(v: Variable, name: string, i: nat) returns (ps: seq<Piece>, other: Variable)
    requires IsIdentifier(v.name) && NoSpecial(v.value) && IsIdentifier(name) && name != v.name
    requires i < |v.value| && Comparable(v.value[i..], Placeholder(name))
    ensures PiecesOk(ps) && VariableOk(other) && other.name != v.name && !OrdersAgree(ps, v, other)
  {
    var q := Completed(v.value, name, i);
    ps, other := [Hole(v.name), Text(q)], Variable(name, "");
    assert PieceOk(Text(q));
    Both(v, name, q, ps);
    Shortens("", v.value + q, name, i);
  }

  /** That template, rendered in the two orders. */
  lemma Both(v: Variable, name: string, q: string, ps: seq<Piece>)
    requires IsIdentifier(v.name) && NoSpecial(v.value) && IsIdentifier(name) && name != v.name && Harmless(q)
    requires ps == [Hole(v.name), Text(q)]
    ensures ReplaceAll(Print(ps), [v, Variable(name, "")]) == Replace("", v.value + q, Placeholder(name), "")
    ensures ReplaceAll(Print(ps), [Variable(name, ""), v]) == v.value + q
  {
    var other := Variable(name, "");
    HarmlessIsQuiet(q, v.name);
    HarmlessIsQuiet(q, name);
    ReplaceTwo(Print(ps), v, other);
    ReplaceTwo(Print(ps), other, v);
    assert QuietPieces(ps, v.name) && QuietPieces(ps, name);
    ReplaceFillsOne("", ps, v);
    ReplaceFillsOne("", ps, other);
    assert FillOne(ps, other) == ps;
    assert FillOne(ps, v) == [Text(v.value), Text(q)];
    PrintTexts(v.value, q);
  }

  lemma PrintTexts(s: string, t: string)
    ensures Print([Text(t)]) == t && Print([Text(s), Text(t)]) == s + t
  {
    var one, two := [Text(t)], [Text(s), Text(t)];
    assert two[1..] == one && one[1..] == [];
    assert Print(one) == t + "" == t;
    assert Print(two) == s + Print(two[1..]);
  }

  /**
    For a value inserted verbatim, the order never matters, whatever the template and the other
    variable, exactly when the value neither contains a placeholder of another name nor ends in the
    beginning of one.
  */
  lemma OrderMattersExactly(v: Variable)
    requires IsIdentifier(v.name) && NoSpecial(v.value)
    ensures NeverOrderSensitive(v) <==> Inert(v.value, v.name)
  {
    if Inert(v.value, v.name) {
      forall ps, other | PiecesOk(ps) && VariableOk(other) && other.name != v.name
        ensures OrdersAgree(ps, v, other)
      {
        InertOrdersAgree(ps, v, other);
      }
    } else {
      var name: string :| IsIdentifier(name) && name != v.name && !Quiet(v.value, name);
      var i: nat :| i < |v.value| && Comparable(v.value[i..], Placeholder(name));
      var ps, other := NotQuietMatters(v, name, i);
    }
  }

  // ── Why the conditions are there ─────────────────────────────────────────────

  lemma Appended(html: string, v: Variable, other: Variable)
    ensures ReplaceAll(html, [v, other]) == Replace("", ReplaceAll(html, [v]), Placeholder(other.name), other.value)
    ensures ReplaceAll(html, [v]) == Replace("", html, Placeholder(v.name), v.value)
  {
    assert [v, other][..1] == [v] && [v][..0] == [] && ReplaceAll(html, []) == html;
  }

  /** A placeholder of another name is left alone. */
  lemma OtherAlone(name: string, v: Variable)
    requires IsIdentifier(name) && IsIdentifier(v.name) && name != v.name
    ensures ReplaceAll(Placeholder(name), [v]) == Placeholder(name)
  {
    Appended(Placeholder(name), v, v);
    assert Placeholder(name) + "" == Placeholder(name);
    CopyOther("", name, "", v.name, v.value);
    assert Replace("" + Placeholder(name), "", Placeholder(v.name), v.value) == "";
  }

  lemma NothingSpecial(name: string)
    requires IsIdentifier(name)
    ensures NoSpecial(Placeholder(name))
  {
    var p := Placeholder(name);
    assert forall i :: 0 <= i < |p| ==> p[i] == '{' || p[i] == '}' || p[i] in name;
  }

  /** A value that is another variable's placeholder is substituted again, or not, depending on the order. */
  lemma PlaceholderInValue(a: string, b: string, value: string)
    requires IsIdentifier(a) && IsIdentifier(b) && a != b && NoSpecial(value)
    ensures ReplaceAll(Placeholder(a), [Variable(a, Placeholder(b)), Variable(b, value)]) == value
    ensures ReplaceAll(Placeholder(a), [Variable(b, value), Variable(a, Placeholder(b))]) == Placeholder(b)
  {
    var va, vb := Variable(a, Placeholder(b)), Variable(b, value);
    NothingSpecial(b);
    InsertedVerbatim(a, Placeholder(b));
    InsertedVerbatim(b, value);
    OtherAlone(a, vb);
    Appended(Placeholder(a), va, vb);
    Appended(Placeholder(b), vb, vb);
    Appended(Placeholder(a), vb, va);
    Appended(Placeholder(a), va, va);
  }

  /** A dollar sign in a value can bring the placeholder back instead of the value. */
  lemma DollarInValue()
    ensures ReplaceAll("{{a}}", [Variable("a", "$&")]) == "{{a}}"
  {
    var v := Variable("a", "$&");
    assert [v][..0] == [] && Placeholder("a") == "{{a}}" && "{{a}}"[5..] == "";
    assert Expand("$&", "", "{{a}}", "") == "{{a}}" + Expand("", "", "{{a}}", "");
  }
}
