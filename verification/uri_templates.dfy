/** The template matcher that guards resource reads (section 3.2.2 of RFC 6570, restricted). */
module UriTemplates {
  import opened Wrappers

  // ---- Strings ----

  /** The leftmost place of a pattern. */
  function Find(s: string, pattern: string): (at: Option<nat>)
    ensures at.Some? ==> at.value + |pattern| <= |s| && s[at.value..at.value + |pattern|] == pattern
    decreases |s|
  {
    if pattern <= s then Some(0)
    else if s == "" then None
    else
      var later := Find(s[1..], pattern);
      if later.Some? then Some(later.value + 1) else None
  }

  lemma {:induction false} FindIsLeftmost(s: string, pattern: string, at: nat)
    requires at + |pattern| <= |s| && s[at..at + |pattern|] == pattern
    ensures Find(s, pattern).Some? && Find(s, pattern).value <= at
    decreases |s|
  {
    if !(pattern <= s) {
      assert s[1..][at - 1..at - 1 + |pattern|] == s[at..at + |pattern|];
      FindIsLeftmost(s[1..], pattern, at - 1);
    }
  }

  predicate HasChar(s: string, c: char) {
    exists i :: 0 <= i < |s| && s[i] == c
  }

  function Split(s: string, separator: char): (parts: seq<string>)
    ensures |parts| > 0
    decreases |s|
  {
    if s == "" then [""]
    else
      var rest := Split(s[1..], separator);
      if s[0] == separator then [""] + rest else [[s[0]] + rest[0]] + rest[1..]
  }

  function AfterFirst(s: string, separator: char): Option<string>
    decreases |s|
  {
    if s == "" then None else if s[0] == separator then Some(s[1..]) else AfterFirst(s[1..], separator)
  }

  // ---- Templates ----

  /** The text before the first variable, and the literal after each variable. */
  datatype Template = Template(prefix: string, literals: seq<string>)

  function Literals(parts: seq<string>): Option<seq<string>> {
    if parts == [] then Some([])
    else
      var literal := AfterFirst(parts[0], '}');
      var rest := Literals(parts[1..]);
      if literal.None? || rest.None? then None else Some([literal.value] + rest.value)
  }

  /** A variable without its closing brace makes the template malformed. */
  function Parse(template: string): Option<Template> {
    var parts := Split(template, '{');
    var literals := Literals(parts[1..]);
    if literals.None? then None else Some(Template(parts[0], literals.value))
  }

  /** What follows the prefix, against the literals in turn. */
  predicate MatchesRest(rest: string, literals: seq<string>)
    decreases |literals|
  {
    if literals == [] then rest == ""
    else if literals[0] == "" then |literals| == 1 && rest != "" && !HasChar(rest, '/')
    else
      var found := Find(rest, literals[0]);
      && found.Some? && found.value > 0 && !HasChar(rest[..found.value], '/')
      && MatchesRest(rest[found.value + |literals[0]|..], literals[1..])
  }

  predicate Matches(uri: string, template: string) {
    var parsed := Parse(template);
    && Find(uri, "..").None? && parsed.Some? && parsed.value.prefix <= uri
    && MatchesRest(uri[|parsed.value.prefix|..], parsed.value.literals)
  }

  function Prepended(front: seq<string>, later: Option<seq<string>>): Option<seq<string>> {
    if later.None? then None else Some(front + later.value)
  }

  lemma PrependedNone(later: Option<seq<string>>)
    ensures Prepended([], later) == later
  {
    assert later.Some? ==> [] + later.value == later.value;
  }

  lemma PrependedAgain(front: seq<string>, next: Option<string>, later: Option<seq<string>>)
    ensures Prepended(front, if next.None? || later.None? then None else Some([next.value] + later.value)) ==
            if next.None? then None else Prepended(front + [next.value], later)
  {
    assert next.Some? && later.Some? ==> front + ([next.value] + later.value) == front + [next.value] + later.value;
  }

  /** Collect the literals, refusing a template whose brace is never closed. */
  method LiteralsOf(parts: seq<string>) returns (literals: Option<seq<string>>)
    ensures literals == Literals(parts)
  {
    var segments: seq<string> := [];
    PrependedNone(Literals(parts));
    assert parts[0..] == parts;
    for i := 0 to |parts|
      invariant Literals(parts) == Prepended(segments, Literals(parts[i..]))
    {
      assert parts[i..][1..] == parts[i + 1..];
      PrependedAgain(segments, AfterFirst(parts[i], '}'), Literals(parts[i + 1..]));
      var literal := AfterFirst(parts[i], '}');
      if literal.None? { return None; }
      segments := segments + [literal.value];
    }
    assert segments + [] == segments;
    return Some(segments);
  }

  method UriMatchesTemplate(uri: string, template: string) returns (matches: bool)
    ensures matches == Matches(uri, template)
  {
    if Find(uri, "..").Some? { return false; }
    var parts := Split(template, '{');
    var prefix := parts[0];
    if !(prefix <= uri) { return false; }
    var literals := LiteralsOf(parts[1..]);
    if literals.None? { return false; }
    matches := SegmentsMatch(uri[|prefix|..], literals.value);
  }

  /** The loop that shrinks what is left of the URI. */
  method SegmentsMatch(start: string, segments: seq<string>) returns (matches: bool)
    ensures matches == MatchesRest(start, segments)
  {
    var rest := start;
    assert segments[0..] == segments;
    for index := 0 to |segments|
      invariant MatchesRest(rest, segments[index..]) == MatchesRest(start, segments)
    {
      var literal := segments[index];
      assert segments[index..][0] == literal && segments[index..][1..] == segments[index + 1..];
      if literal == "" {
        return index + 1 == |segments| && rest != "" && !HasChar(rest, '/');
      }
      var found := Find(rest, literal);
      if found.None? || found.value == 0 || HasChar(rest[..found.value], '/') { return false; }
      rest := rest[found.value + |literal|..];
    }
    return rest == "";
  }

  // ---- Expansion ----

  predicate IsValue(value: string) {
    value != "" && !HasChar(value, '/')
  }

  /** The template's text after the prefix with a value for each variable. */
  function Expand(literals: seq<string>, values: seq<string>): string
    requires |literals| == |values|
  {
    if literals == [] then "" else values[0] + literals[0] + Expand(literals[1..], values[1..])
  }

  predicate AllValues(values: seq<string>) {
    forall i :: 0 <= i < |values| ==> IsValue(values[i])
  }

  /** No literal occurs before its own place: each value is cut at the first chance. */
  predicate Leftmost(literals: seq<string>, values: seq<string>)
    requires |literals| == |values|
    decreases |literals|
  {
    literals != [] ==>
      && (if literals[0] == "" then |literals| == 1
          else Find(Expand(literals, values), literals[0]) == Some(|values[0]|))
      && Leftmost(literals[1..], values[1..])
  }

  /** The values the matcher finds. */
  function Found(rest: string, literals: seq<string>): (values: seq<string>)
    requires MatchesRest(rest, literals)
    ensures |values| == |literals|
    decreases |literals|
  {
    if literals == [] then []
    else if literals[0] == "" then [rest]
    else
      var at := Find(rest, literals[0]).value;
      [rest[..at]] + Found(rest[at + |literals[0]|..], literals[1..])
  }

  /** One literal's place puts its value, the literal and the rest together. */
  lemma ExpandCons(value: string, literal: string, later: string, literals: seq<string>, values: seq<string>)
    requires |literals| == |values| && Expand(literals, values) == later
    ensures Expand([literal] + literals, [value] + values) == value + literal + later
  {
    assert ([literal] + literals)[1..] == literals && ([value] + values)[1..] == values;
  }

  /** The text is the literals' leftmost expansion with these values. */
  predicate IsCut(rest: string, literals: seq<string>, values: seq<string>) {
    |literals| == |values| && AllValues(values) && Expand(literals, values) == rest && Leftmost(literals, values)
  }

  lemma {:induction false} FoundExpands(rest: string, literals: seq<string>)
    requires MatchesRest(rest, literals)
    ensures IsCut(rest, literals, Found(rest, literals))
    decreases |literals|
  {
    if literals == [] {
    } else if literals[0] == "" {
      FoundLast(rest, literals);
    } else {
      var at := Find(rest, literals[0]).value;
      var later := rest[at + |literals[0]|..];
      FoundExpands(later, literals[1..]);
      FoundUnfolds(rest, literals);
      CutMore(rest, literals[0], at, later, literals[1..], Found(later, literals[1..]));
      assert literals == [literals[0]] + literals[1..];
    }
  }

  lemma FoundLast(rest: string, literals: seq<string>)
    requires MatchesRest(rest, literals) && literals != [] && literals[0] == ""
    ensures IsCut(rest, literals, Found(rest, literals))
  {
    assert literals == [""];
    ExpandCons(rest, "", "", [], []);
    assert rest + "" + "" == rest;
    assert literals[1..] == [] && Found(rest, literals)[1..] == [];
  }

  lemma FoundUnfolds(rest: string, literals: seq<string>)
    requires MatchesRest(rest, literals) && literals != [] && literals[0] != ""
    ensures
      var at := Find(rest, literals[0]).value;
      Found(rest, literals) == [rest[..at]] + Found(rest[at + |literals[0]|..], literals[1..])
  {
  }

  lemma Recombined(s: string, literal: string, at: nat)
    requires at + |literal| <= |s| && s[at..at + |literal|] == literal
    ensures s == s[..at] + literal + s[at + |literal|..]
  {
  }

  lemma CutMore(rest: string, literal: string, at: nat, later: string, literals: seq<string>, values: seq<string>)
    requires Find(rest, literal) == Some(at) && later == rest[at + |literal|..] && literal != ""
    requires IsValue(rest[..at]) && IsCut(later, literals, values)
    ensures IsCut(rest, [literal] + literals, [rest[..at]] + values)
  {
    Recombined(rest, literal, at);
    AllCons(rest[..at], literal, later, literals, values);
  }

  lemma AllCons(value: string, literal: string, later: string, literals: seq<string>, values: seq<string>)
    requires |literals| == |values| && Expand(literals, values) == later && literal != ""
    requires IsValue(value) && AllValues(values) && Leftmost(literals, values)
    requires Find(value + literal + later, literal) == Some(|value|)
    ensures Expand([literal] + literals, [value] + values) == value + literal + later
    ensures AllValues([value] + values) && Leftmost([literal] + literals, [value] + values)
  {
    ExpandCons(value, literal, later, literals, values);
    assert ([literal] + literals)[1..] == literals && ([value] + values)[1..] == values;
  }

  lemma {:induction false} LeftmostMatches(literals: seq<string>, values: seq<string>)
    requires |literals| == |values| && AllValues(values) && Leftmost(literals, values)
    ensures MatchesRest(Expand(literals, values), literals)
    decreases |literals|
  {
    if literals != [] {
      var rest := Expand(literals, values);
      if literals[0] == "" {
        assert literals[1..] == [] && values[1..] == [];
        assert rest == values[0];
      } else {
        LeftmostMatches(literals[1..], values[1..]);
        var at := |values[0]|;
        assert rest[..at] == values[0];
        assert rest[at + |literals[0]|..] == Expand(literals[1..], values[1..]);
      }
    }
  }

  /** The URI is the template with these values, each cut where its literal first occurs. */
  predicate IsExpansion(uri: string, template: string, values: seq<string>) {
    var parsed := Parse(template);
    && parsed.Some? && |values| == |parsed.value.literals| && AllValues(values)
    && uri == parsed.value.prefix + Expand(parsed.value.literals, values)
    && Leftmost(parsed.value.literals, values)
  }

  /**
   * The matcher, exactly: it accepts a URI if and only if the URI has no `..`
   * and is the template with each variable replaced by a non-empty value
   * without a slash, each cut where its literal first occurs.
   */
  lemma MatchesIffLeftmost(uri: string, template: string)
    ensures Matches(uri, template) <==>
      Find(uri, "..").None? && exists values: seq<string> :: IsExpansion(uri, template, values)
  {
    if Parse(template).Some? {
      var t := Parse(template).value;
      if Matches(uri, template) {
        FoundExpands(uri[|t.prefix|..], t.literals);
        assert IsExpansion(uri, template, Found(uri[|t.prefix|..], t.literals));
      }
      forall values: seq<string> | IsExpansion(uri, template, values)
        ensures Find(uri, "..").None? ==> Matches(uri, template)
      {
        LeftmostMatches(t.literals, values);
        assert uri[|t.prefix|..] == Expand(t.literals, values);
      }
    }
  }

  // ---- Which templates accept all their expansions ----

  predicate EndsInDot(s: string) {
    s != "" && s[|s| - 1] == '.'
  }

  /** The template's own text has two dots in a row. */
  predicate HasDots(t: Template) {
    Find(t.prefix, "..").Some? || exists i :: 0 <= i < |t.literals| && Find(t.literals[i], "..").Some?
  }

  /**
   * A variable's value and the text before it together cannot start with a dot
   * and so cannot start with this literal.
   */
  predicate Dotted(before: string, literal: string) {
    EndsInDot(before) && literal != "" && literal[0] == '.'
  }

  /**
   * Each literal is the empty last one, or contains a slash, or stands, with
   * more behind it, so that the variable before it is between two dots.
   */
  predicate Sound(before: string, literals: seq<string>)
    decreases |literals|
  {
    literals != [] ==>
      && (if literals[0] == "" then |literals| == 1
          else HasChar(literals[0], '/') || (|literals| > 1 && Dotted(before, literals[0])))
      && Sound(literals[0], literals[1..])
  }

  predicate NoDots(s: string) {
    forall i :: 0 < i < |s| ==> s[i - 1] != '.' || s[i] != '.'
  }

  lemma {:induction false} FindsDots(s: string)
    ensures Find(s, "..").None? <==> NoDots(s)
    decreases |s|
  {
    var found := Find(s, "..");
    if found.Some? {
      assert s[found.value..found.value + 2][0] == '.' && s[found.value..found.value + 2][1] == '.';
      assert !NoDots(s) by { assert s[found.value + 1 - 1] == '.'; }
    } else {
      forall i | 0 < i < |s| ensures s[i - 1] != '.' || s[i] != '.' {
        if s[i - 1] == '.' && s[i] == '.' {
          assert s[i - 1..i - 1 + 2] == "..";
          FindIsLeftmost(s, "..", i - 1);
        }
      }
    }
  }

  lemma NoDotsInside(s: string, i: nat, j: nat)
    requires NoDots(s) && i <= j <= |s|
    ensures NoDots(s[i..j])
  {
    forall k | 0 < k < |s[i..j]| ensures s[i..j][k - 1] != '.' || s[i..j][k] != '.' {
      assert s[i..j][k] == s[i + k] && s[i..j][k - 1] == s[i + k - 1];
    }
  }

  lemma NoDotsJoin(a: string, b: string)
    requires NoDots(a) && NoDots(b) && (!EndsInDot(a) || b == "" || b[0] != '.')
    ensures NoDots(a + b)
  {
    var s := a + b;
    forall k | 0 < k < |s| ensures s[k - 1] != '.' || s[k] != '.' {
      if k < |a| {
        assert s[k] == a[k] && s[k - 1] == a[k - 1];
      } else if k == |a| {
        assert s[k - 1] == a[|a| - 1] && s[k] == b[0];
      } else {
        assert s[k] == b[k - |a|] && s[k - 1] == b[k - 1 - |a|];
      }
    }
  }

  /** Text without a slash cannot hide the start of a literal that has one. */
  lemma SlashIsFirst(text: string, literal: string, later: string)
    requires !HasChar(text, '/') && HasChar(literal, '/')
    ensures Find(text + literal + later, literal) == Some(|text|)
  {
    var s := text + literal + later;
    assert s[|text|..|text| + |literal|] == literal;
    FindIsLeftmost(s, literal, |text|);
    var at := Find(s, literal).value;
    var slash := FirstSlash(literal);
    assert forall k :: 0 <= k < |text| + slash ==> s[k] == if k < |text| then text[k] else literal[k - |text|];
    assert s[at + slash] == s[at..at + |literal|][slash] == '/';
  }

  function FirstSlash(s: string): (i: nat)
    requires HasChar(s, '/')
    ensures i < |s| && s[i] == '/' && forall j :: 0 <= j < i ==> s[j] != '/'
    decreases |s|
  {
    if s[0] == '/' then 0
    else
      var i :| 0 <= i < |s| && s[i] == '/';
      assert s[1..][i - 1] == '/';
      1 + FirstSlash(s[1..])
  }

  lemma NoSlashJoin(a: string, b: string)
    requires !HasChar(a, '/') && !HasChar(b, '/')
    ensures !HasChar(a + b, '/')
  {
    forall i | 0 <= i < |a + b| ensures (a + b)[i] != '/' {
      assert (a + b)[i] == if i < |a| then a[i] else b[i - |a|];
    }
  }

  lemma NoSlashInside(s: string, i: nat, j: nat)
    requires !HasChar(s, '/') && i <= j <= |s|
    ensures !HasChar(s[i..j], '/')
  {
    assert forall k :: 0 <= k < |s[i..j]| ==> s[i..j][k] == s[i + k];
  }

  /** A literal found where it stands leaves what is behind it. */
  lemma MatchesAt(text: string, literal: string, later: string, literals: seq<string>)
    requires literals != [] && literals[0] == literal != "" && text != "" && !HasChar(text, '/')
    requires Find(text + literal + later, literal) == Some(|text|)
    ensures MatchesRest(text + literal + later, literals) == MatchesRest(later, literals[1..])
  {
    var s := text + literal + later;
    assert s[..|text|] == text && s[|text| + |literal|..] == later;
  }

  /**
   * Acceptance, with what an early cut may have left in front: text without a
   * slash that the next variable takes along.
   */
  lemma {:induction false} SoundAccepts(before: string, left: string, literals: seq<string>, values: seq<string>)
    requires |literals| == |values| && AllValues(values) && Sound(before, literals)
    requires !HasChar(left, '/') && (literals == [] ==> left == "")
    requires NoDots(before + (left + Expand(literals, values)))
    ensures MatchesRest(left + Expand(literals, values), literals)
    decreases |literals|
  {
    if literals != [] {
      var text, later := left + values[0], Expand(literals[1..], values[1..]);
      assert left + Expand(literals, values) == text + literals[0] + later;
      NoSlashJoin(left, values[0]);
      if literals[0] == "" {
        assert literals[1..] == [] && text + literals[0] + later == text;
      } else if HasChar(literals[0], '/') {
        SlashAccepts(before, text, literals, values);
      } else {
        DottedAccepts(before, text, literals, values);
      }
    }
  }

  lemma SlashAccepts(before: string, text: string, literals: seq<string>, values: seq<string>)
    requires 0 < |literals| == |values| && AllValues(values) && Sound(before, literals)
    requires text != "" && !HasChar(text, '/') && HasChar(literals[0], '/')
    requires NoDots(before + (text + literals[0] + Expand(literals[1..], values[1..])))
    ensures MatchesRest(text + literals[0] + Expand(literals[1..], values[1..]), literals)
    decreases |literals|, 0
  {
    var later := Expand(literals[1..], values[1..]);
    SlashIsFirst(text, literals[0], later);
    MatchesAt(text, literals[0], later, literals);
    LaterHasNoDots(before, text, literals[0], later);
    SoundAccepts(literals[0], "", literals[1..], values[1..]);
    assert "" + later == later;
  }

  lemma LaterHasNoDots(before: string, text: string, literal: string, later: string)
    requires NoDots(before + (text + literal + later))
    ensures NoDots(literal + ("" + later))
  {
    var s := before + (text + literal + later);
    NoDotsInside(s, |before + text|, |s|);
    assert s[|before + text|..|s|] == literal + ("" + later);
  }

  /** Where the literal is first found, what is left over in front of the rest, and what holds of it. */
  predicate EarlyCut(text: string, literal: string, later: string, at: nat, left: string) {
    && Find(text + literal + later, literal) == Some(at) && 0 < at <= |text|
    && at + |literal| + |left| == |text| + |literal|
    && (text + literal + later)[at + |literal|..] == left + later
    && !HasChar(left, '/') && NoDots(literal + (left + later))
  }

  lemma DottedCut(before: string, text: string, literal: string, later: string) returns (at: nat, left: string)
    requires text != "" && !HasChar(text, '/') && !HasChar(literal, '/') && Dotted(before, literal)
    requires NoDots(before + (text + literal + later))
    ensures EarlyCut(text, literal, later, at, left)
  {
    var rest := text + literal + later;
    assert rest[|text|..|text| + |literal|] == literal;
    FindIsLeftmost(rest, literal, |text|);
    at := Find(rest, literal).value;
    left := (text + literal)[at + |literal|..];
    assert rest[at + |literal|..] == left + later;
    NotAtTheDot(before, rest, literal, at);
    NoSlashJoin(text, literal);
    NoSlashInside(text + literal, at + |literal|, |text + literal|);
    DotsBehind(before, rest, literal, at);
  }

  lemma DotsBehind(before: string, rest: string, literal: string, at: nat)
    requires NoDots(before + rest) && at + |literal| <= |rest| && rest[at..at + |literal|] == literal
    ensures NoDots(literal + rest[at + |literal|..])
  {
    NoDotsInside(before + rest, |before| + at, |before + rest|);
    assert (before + rest)[|before| + at..|before + rest|] == rest[at..at + |literal|] + rest[at + |literal|..];
  }

  lemma NotAtTheDot(before: string, rest: string, literal: string, at: nat)
    requires NoDots(before + rest) && Dotted(before, literal)
    requires at + |literal| <= |rest| && rest[at..at + |literal|] == literal
    ensures at > 0
  {
    var s := before + rest;
    assert s[|before|] == rest[0] && s[|before| - 1] == '.';
    assert rest[at] == rest[at..at + |literal|][0];
  }

  lemma StartOfText(text: string, literal: string, later: string, at: nat)
    requires at <= |text|
    ensures (text + literal + later)[..at] == text[0..at]
  {
  }

  lemma DottedAccepts(before: string, text: string, literals: seq<string>, values: seq<string>)
    requires 1 < |literals| == |values| && AllValues(values) && Sound(before, literals)
    requires text != "" && !HasChar(text, '/') && !HasChar(literals[0], '/') && Dotted(before, literals[0])
    requires NoDots(before + (text + literals[0] + Expand(literals[1..], values[1..])))
    ensures MatchesRest(text + literals[0] + Expand(literals[1..], values[1..]), literals)
    decreases |literals|, 0
  {
    var later := Expand(literals[1..], values[1..]);
    var at, left := DottedCut(before, text, literals[0], later);
    NoSlashInside(text, 0, at);
    StartOfText(text, literals[0], later, at);
    SoundAccepts(literals[0], left, literals[1..], values[1..]);
    MatchesCut(text + literals[0] + later, at, left + later, literals);
  }

  lemma MatchesCut(rest: string, at: nat, later: string, literals: seq<string>)
    requires literals != [] && literals[0] != "" && Find(rest, literals[0]) == Some(at) && at > 0
    requires !HasChar(rest[..at], '/') && rest[at + |literals[0]|..] == later
    ensures MatchesRest(rest, literals) == MatchesRest(later, literals[1..])
  {
  }

  // ---- A refused expansion for every other template ----

  predicate CleanParts(before: string, literals: seq<string>) {
    NoDots(before) && forall i :: 0 <= i < |literals| ==> NoDots(literals[i])
  }

  /** An expansion free of `..` that the matcher refuses. */
  predicate IsRefused(before: string, literals: seq<string>, values: seq<string>) {
    && |literals| == |values| && AllValues(values)
    && NoDots(before + Expand(literals, values)) && !MatchesRest(Expand(literals, values), literals)
  }

  /** Values that bring no dots of their own. */
  function Plainly(n: nat): (values: seq<string>)
    ensures |values| == n && AllValues(values)
  {
    seq(n, i => "x")
  }

  lemma {:induction false} PlainlyIsClean(before: string, literals: seq<string>)
    requires CleanParts(before, literals)
    ensures NoDots(before + Expand(literals, Plainly(|literals|)))
    decreases |literals|
  {
    if literals == [] {
      assert before + "" == before;
    } else {
      var values := Plainly(|literals|);
      assert values[1..] == Plainly(|literals[1..]|);
      PlainlyIsClean(literals[0], literals[1..]);
      ValueJoins(before, "x", literals, values);
    }
  }

  /** A value whose edges meet no dots keeps the whole free of `..`. */
  lemma ValueJoins(before: string, value: string, literals: seq<string>, values: seq<string>)
    requires 0 < |literals| == |values| && values[0] == value != "" && value[|value| - 1] != '.'
    requires NoDots(before) && NoDots(value) && (EndsInDot(before) ==> value[0] != '.')
    requires NoDots(literals[0] + Expand(literals[1..], values[1..]))
    ensures NoDots(before + Expand(literals, values))
  {
    var later := literals[0] + Expand(literals[1..], values[1..]);
    NoDotsJoin(value, later);
    NoDotsJoin(before, value + later);
    assert Expand(literals, values) == value + later;
  }

  /** An empty literal between two variables is never matched. */
  lemma EmptyRefuses(before: string, literals: seq<string>)
    requires CleanParts(before, literals) && |literals| > 1 && literals[0] == ""
    ensures IsRefused(before, literals, Plainly(|literals|))
  {
    PlainlyIsClean(before, literals);
  }

  /** The literal itself in front of its own place, and something between the two. */
  lemma LiteralRefuses(before: string, literals: seq<string>)
    requires CleanParts(before, literals) && literals != [] && literals[0] != ""
    requires !HasChar(literals[0], '/') && !Dotted(before, literals[0])
    ensures IsRefused(before, literals, [literals[0] + "x"] + Plainly(|literals| - 1))
  {
    var literal := literals[0];
    var values := [literal + "x"] + Plainly(|literals| - 1);
    assert values[1..] == Plainly(|literals[1..]|);
    NoSlashJoin(literal, "x");
    NoDotsJoin(literal, "x");
    PlainlyIsClean(literal, literals[1..]);
    ValueJoins(before, literal + "x", literals, values);
    assert literal <= Expand(literals, values);
  }

  /** The last literal too early leaves text over. */
  lemma LastRefuses(before: string, literal: string)
    requires NoDots(before) && NoDots(literal) && Dotted(before, literal) && !HasChar(literal, '/')
    ensures IsRefused(before, [literal], ["x" + literal + "x"])
  {
    var value := "x" + literal + "x";
    NoSlashJoin("x", literal);
    NoSlashJoin("x" + literal, "x");
    NoDotsJoin("x", literal);
    NoDotsJoin("x" + literal, "x");
    assert literal + Expand([], []) == literal;
    assert [value][1..] == [] && [literal][1..] == [];
    ValueJoins(before, value, [literal], [value]);
    var rest := Expand([literal], [value]);
    assert rest == value + literal;
    assert rest[1..1 + |literal|] == literal;
    FindIsLeftmost(rest, literal, 1);
    assert [literal][1..] == [];
  }

  /** A variable matched at its place leaves the refusal to the rest. */
  lemma RestRefuses(before: string, literals: seq<string>, values: seq<string>)
    requires CleanParts(before, literals) && literals != [] && literals[0] != ""
    requires HasChar(literals[0], '/') || literals[0][0] == '.'
    requires IsRefused(literals[0], literals[1..], values)
    ensures IsRefused(before, literals, ["x"] + values)
  {
    var literal, later := literals[0], Expand(literals[1..], values);
    assert (["x"] + values)[1..] == values;
    ValueJoins(before, "x", literals, ["x"] + values);
    var rest := Expand(literals, ["x"] + values);
    assert rest == "x" + literal + later;
    assert rest[1..1 + |literal|] == literal;
    FindIsLeftmost(rest, literal, 1);
    if HasChar(literal, '/') {
      SlashIsFirst("x", literal, later);
    } else {
      assert rest[0] == 'x' && !(literal <= rest);
    }
    MatchesAt("x", literal, later, literals);
  }

  lemma {:induction false} UnsoundRefuses(before: string, literals: seq<string>) returns (values: seq<string>)
    requires CleanParts(before, literals) && !Sound(before, literals)
    ensures IsRefused(before, literals, values)
    decreases |literals|
  {
    var literal := literals[0];
    if literal == "" {
      EmptyRefuses(before, literals);
      values := Plainly(|literals|);
    } else if !HasChar(literal, '/') && !Dotted(before, literal) {
      LiteralRefuses(before, literals);
      values := [literal + "x"] + Plainly(|literals| - 1);
    } else if !HasChar(literal, '/') && |literals| == 1 {
      LastRefuses(before, literal);
      assert literals == [literal];
      values := ["x" + literal + "x"];
    } else {
      var later := UnsoundRefuses(literal, literals[1..]);
      RestRefuses(before, literals, later);
      values := ["x"] + later;
    }
  }

  /** Two dots in the template's own text are in every expansion. */
  lemma {:induction false} DotsStay(before: string, literals: seq<string>, values: seq<string>)
    requires |literals| == |values| && NoDots(before + Expand(literals, values))
    ensures CleanParts(before, literals)
    decreases |literals|
  {
    var s := before + Expand(literals, values);
    NoDotsInside(s, 0, |before|);
    assert s[0..|before|] == before;
    if literals != [] {
      var later := literals[0] + Expand(literals[1..], values[1..]);
      NoDotsInside(s, |before + values[0]|, |s|);
      assert s[|before + values[0]|..|s|] == later;
      DotsStay(literals[0], literals[1..], values[1..]);
      assert forall i :: 0 < i < |literals| ==> literals[i] == literals[1..][i - 1];
    }
  }

  lemma CleanUnlessDots(t: Template)
    ensures CleanParts(t.prefix, t.literals) <==> !HasDots(t)
  {
    FindsDots(t.prefix);
    forall i | 0 <= i < |t.literals| ensures Find(t.literals[i], "..").None? <==> NoDots(t.literals[i]) {
      FindsDots(t.literals[i]);
    }
  }

  /** Every expansion of a sound template is accepted, `..` aside. */
  lemma AcceptsExpansions(uri: string, template: string, values: seq<string>)
    requires Parse(template).Some? && Sound(Parse(template).value.prefix, Parse(template).value.literals)
    requires |values| == |Parse(template).value.literals| && AllValues(values)
    requires uri == Parse(template).value.prefix + Expand(Parse(template).value.literals, values)
    ensures Matches(uri, template) <==> Find(uri, "..").None?
  {
    var t := Parse(template).value;
    FindsDots(uri);
    assert "" + Expand(t.literals, values) == Expand(t.literals, values);
    if NoDots(uri) {
      SoundAccepts(t.prefix, "", t.literals, values);
    }
    assert uri[|t.prefix|..] == Expand(t.literals, values);
  }

  /** Any other template that has no `..` of its own has an expansion that is refused. */
  lemma RefusesAnExpansion(template: string) returns (values: seq<string>)
    requires Parse(template).Some? && !HasDots(Parse(template).value)
    requires !Sound(Parse(template).value.prefix, Parse(template).value.literals)
    ensures |values| == |Parse(template).value.literals| && AllValues(values)
    ensures
      var uri := Parse(template).value.prefix + Expand(Parse(template).value.literals, values);
      Find(uri, "..").None? && !Matches(uri, template)
  {
    var t := Parse(template).value;
    CleanUnlessDots(t);
    values := UnsoundRefuses(t.prefix, t.literals);
    var uri := t.prefix + Expand(t.literals, values);
    FindsDots(uri);
    assert uri[|t.prefix|..] == Expand(t.literals, values);
  }

  /** The matcher accepts whatever the template expands to, `..` aside. */
  ghost predicate AcceptsAll(template: string)
    requires Parse(template).Some?
  {
    var t := Parse(template).value;
    forall values: seq<string> :: |values| == |t.literals| && AllValues(values)
      && Find(t.prefix + Expand(t.literals, values), "..").None?
      ==> Matches(t.prefix + Expand(t.literals, values), template)
  }

  /** Exactly the templates that accept all their expansions. */
  lemma AcceptsAllIff(template: string)
    requires Parse(template).Some?
    ensures
      var t := Parse(template).value;
      AcceptsAll(template) <==> HasDots(t) || Sound(t.prefix, t.literals)
  {
    var t := Parse(template).value;
    CleanUnlessDots(t);
    if HasDots(t) || Sound(t.prefix, t.literals) {
      forall values: seq<string> | |values| == |t.literals| && AllValues(values)
                                   && Find(t.prefix + Expand(t.literals, values), "..").None?
        ensures Matches(t.prefix + Expand(t.literals, values), template)
      {
        FindsDots(t.prefix + Expand(t.literals, values));
        DotsStay(t.prefix, t.literals, values);
        AcceptsExpansions(t.prefix + Expand(t.literals, values), template, values);
      }
    } else {
      var values := RefusesAnExpansion(template);
    }
  }

  lemma ExampleParses()
    ensures Parse("{a}ab") == Some(Template("", ["ab"]))
  {
    ParsesRendered("", ["a"], ["ab"]);
    assert Rendered([], []) == "";
    assert ["a"][1..] == [] && ["ab"][1..] == [];
    assert "" + Rendered(["a"], ["ab"]) == "{a}ab";
  }

  lemma ExampleIsFoundEarly()
    ensures Find("xabab", "ab") == Some(1) && !MatchesRest("xabab", ["ab"])
  {
    assert "xabab"[1..] == "abab" && "ab" <= "abab";
    assert !("ab" <= "xabab") by { assert "xabab"[0] == 'x' && "ab"[0] == 'a'; }
    assert Find("abab", "ab") == Some(0);
    assert "xabab"[3..] == "ab" && ["ab"][1..] == [];
    assert !MatchesRest("ab", []);
  }

  lemma ExampleExpands()
    ensures AllValues(["xab"]) && Expand(["ab"], ["xab"]) == "xabab"
  {
    ExpandCons("xab", "ab", "", [], []);
    assert ["ab"] + [] == ["ab"] && ["xab"] + [] == ["xab"] && "xab" + "ab" + "" == "xabab";
  }

  /** A refused expansion: the first `ab` ends the value too soon. */
  lemma ExampleIsRefused()
    ensures Parse("{a}ab") == Some(Template("", ["ab"]))
    ensures AllValues(["xab"]) && Expand(["ab"], ["xab"]) == "xabab" && Find("xabab", "..").None?
    ensures !Matches("xabab", "{a}ab")
  {
    ExampleParses();
    ExampleIsFoundEarly();
    ExampleExpands();
    FindsDots("xabab");
    assert "xabab"[|""|..] == "xabab";
  }

  // ---- Parsing is right ----

  /** The template text for a prefix, variable names and literals. */
  function Rendered(names: seq<string>, literals: seq<string>): string
    requires |names| == |literals|
  {
    if names == [] then "" else "{" + (names[0] + "}" + literals[0]) + Rendered(names[1..], literals[1..])
  }

  predicate Plain(s: string) {
    !HasChar(s, '{') && !HasChar(s, '}')
  }

  lemma SplitCons(s: string)
    requires s != "" && s[0] != '{'
    ensures Split(s, '{') == [[s[0]] + Split(s[1..], '{')[0]] + Split(s[1..], '{')[1..]
  {
  }

  lemma FirstJoins(s: string, part: string)
    requires s != ""
    ensures [s[0]] + (s[1..] + part) == s + part
  {
  }

  lemma {:induction false} SplitAppends(s: string, rest: string)
    requires !HasChar(s, '{')
    ensures Split(s + rest, '{') == [s + Split(rest, '{')[0]] + Split(rest, '{')[1..]
    decreases |s|
  {
    if s == "" {
      assert s + rest == rest && s + Split(rest, '{')[0] == Split(rest, '{')[0];
      assert [Split(rest, '{')[0]] + Split(rest, '{')[1..] == Split(rest, '{');
    } else {
      assert forall i :: 0 <= i < |s[1..]| ==> s[1..][i] == s[i + 1];
      SplitAppends(s[1..], rest);
      assert (s + rest)[1..] == s[1..] + rest;
      assert s[0] != '{';
      SplitCons(s + rest);
      FirstJoins(s, Split(rest, '{')[0]);
    }
  }

  lemma {:induction false} AfterName(name: string, literal: string)
    requires !HasChar(name, '}')
    ensures AfterFirst(name + "}" + literal, '}') == Some(literal)
    decreases |name|
  {
    var s := name + "}" + literal;
    if name == "" {
      assert s[1..] == literal;
    } else {
      assert forall i :: 0 <= i < |name[1..]| ==> name[1..][i] == name[i + 1];
      AfterName(name[1..], literal);
      assert s[1..] == name[1..] + "}" + literal;
      assert s[0] == name[0];
    }
  }

  lemma BodyHasNoBrace(name: string, literal: string)
    requires Plain(name) && !HasChar(literal, '{')
    ensures !HasChar(name + "}" + literal, '{')
  {
    var body := name + "}" + literal;
    assert forall i :: 0 <= i < |body| ==>
      if i < |name| then body[i] == name[i]
      else if i == |name| then body[i] == '}' else body[i] == literal[i - |name| - 1];
  }

  lemma LiteralsCons(part: string, parts: seq<string>, literal: string, literals: seq<string>)
    requires AfterFirst(part, '}') == Some(literal) && Literals(parts) == Some(literals)
    ensures Literals([part] + parts) == Some([literal] + literals)
  {
    assert ([part] + parts)[1..] == parts;
  }

  /** Names without braces, and literals that open none. */
  predicate AllWritten(names: seq<string>, literals: seq<string>) {
    |names| == |literals| && forall i :: 0 <= i < |names| ==> Plain(names[i]) && !HasChar(literals[i], '{')
  }

  lemma {:induction false} RenderedSplits(names: seq<string>, literals: seq<string>)
    requires |names| == |literals| && AllWritten(names, literals)
    ensures Split(Rendered(names, literals), '{')[0] == ""
    ensures Literals(Split(Rendered(names, literals), '{')[1..]) == Some(literals)
    decreases |names|
  {
    if names == [] {
      assert Split("", '{')[1..] == [];
    } else {
      var body := names[0] + "}" + literals[0];
      var later := Rendered(names[1..], literals[1..]);
      RenderedSplits(names[1..], literals[1..]);
      BodyHasNoBrace(names[0], literals[0]);
      SplitAppends(body, later);
      AfterName(names[0], literals[0]);
      var s := Rendered(names, literals);
      assert s[1..] == body + later;
      assert body + "" == body;
      LiteralsCons(body, Split(later, '{')[1..], literals[0], literals[1..]);
      assert Split(s, '{')[1..] == [body] + Split(later, '{')[1..];
      assert literals == [literals[0]] + literals[1..];
    }
  }

  /** A template written with plain names is parsed into exactly its prefix and literals. */
  lemma ParsesRendered(prefix: string, names: seq<string>, literals: seq<string>)
    requires AllWritten(names, literals) && !HasChar(prefix, '{')
    ensures Parse(prefix + Rendered(names, literals)) == Some(Template(prefix, literals))
  {
    RenderedSplits(names, literals);
    SplitAppends(prefix, Rendered(names, literals));
    var rest := Split(Rendered(names, literals), '{');
    assert ([prefix + rest[0]] + rest[1..])[1..] == rest[1..];
    assert prefix + "" == prefix;
  }

  /** The parts behind an opening brace, with their braces. */
  function Braced(parts: seq<string>): string {
    if parts == [] then "" else "{" + parts[0] + Braced(parts[1..])
  }

  predicate NoneOpens(parts: seq<string>) {
    forall i :: 0 <= i < |parts| ==> !HasChar(parts[i], '{')
  }

  lemma {:induction false} SplitJoins(s: string)
    ensures s == Split(s, '{')[0] + Braced(Split(s, '{')[1..]) && NoneOpens(Split(s, '{'))
    decreases |s|
  {
    if s != "" {
      var rest := Split(s[1..], '{');
      SplitJoins(s[1..]);
      if s[0] == '{' {
        assert Split(s, '{')[1..] == rest;
        BracedCons(rest);
        assert s == "{" + s[1..];
      } else {
        SplitCons(s);
        OpensNoMore(s[0], rest[0]);
        FirstAndMore(s[0], rest[0], Braced(rest[1..]), s[1..]);
        assert s == [s[0]] + s[1..];
      }
    }
  }

  lemma BracedCons(parts: seq<string>)
    requires parts != []
    ensures Braced(parts) == "{" + (parts[0] + Braced(parts[1..]))
  {
  }

  lemma OpensNoMore(c: char, part: string)
    requires c != '{' && !HasChar(part, '{')
    ensures !HasChar([c] + part, '{')
  {
  }

  lemma FirstAndMore(c: char, part: string, more: string, whole: string)
    requires whole == part + more
    ensures [c] + whole == [c] + part + more
  {
  }

  lemma {:induction false} NameOf(part: string) returns (name: string)
    requires AfterFirst(part, '}').Some?
    ensures part == name + "}" + AfterFirst(part, '}').value && !HasChar(name, '}')
    decreases |part|
  {
    if part[0] == '}' {
      name := "";
    } else {
      name := NameOf(part[1..]);
      assert part == [part[0]] + part[1..];
      name := [part[0]] + name;
    }
  }

  lemma PartsOpenNone(name: string, literal: string)
    requires !HasChar(name + "}" + literal, '{')
    ensures !HasChar(name, '{') && !HasChar(literal, '{')
  {
    var part := name + "}" + literal;
    assert forall i :: 0 <= i < |name| ==> part[i] == name[i];
    assert forall i :: 0 <= i < |literal| ==> part[|name| + 1 + i] == literal[i];
  }

  lemma {:induction false} NamesOf(parts: seq<string>) returns (names: seq<string>)
    requires Literals(parts).Some? && NoneOpens(parts)
    ensures AllWritten(names, Literals(parts).value) && Braced(parts) == Rendered(names, Literals(parts).value)
  {
    if parts == [] {
      names := [];
    } else {
      var literals := Literals(parts).value;
      var name := NameOf(parts[0]);
      PartsOpenNone(name, literals[0]);
      var more := NamesOf(parts[1..]);
      names := [name] + more;
      assert names[1..] == more && literals[1..] == Literals(parts[1..]).value;
      assert forall i :: 0 < i < |names| ==> names[i] == more[i - 1] && literals[i] == literals[1..][i - 1];
    }
  }

  /**
   * The parse, exactly: a template has this prefix and these literals if and
   * only if it is the prefix and then for each literal a name in braces and the
   * literal, with no other opening brace and no brace in a name. Any other
   * template is malformed.
   */
  lemma ParseIff(template: string, prefix: string, literals: seq<string>)
    ensures Parse(template) == Some(Template(prefix, literals)) <==>
      !HasChar(prefix, '{') && exists names: seq<string> ::
        AllWritten(names, literals) && template == prefix + Rendered(names, literals)
  {
    if Parse(template) == Some(Template(prefix, literals)) {
      SplitJoins(template);
      assert Split(template, '{')[0] == prefix;
      assert NoneOpens(Split(template, '{')[1..]);
      var names := NamesOf(Split(template, '{')[1..]);
    }
    forall names: seq<string> | AllWritten(names, literals) && !HasChar(prefix, '{')
      ensures Parse(prefix + Rendered(names, literals)) == Some(Template(prefix, literals))
    {
      ParsesRendered(prefix, names, literals);
    }
  }
}
