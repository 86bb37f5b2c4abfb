/** The admin product page's slug suggestion (products/static/admin/product.js):
    when the name field loses focus and the slug field is empty, the slug
    becomes the name lower-cased, with every run of characters outside
    a-z and 0-9 replaced by one '-', and a leading and a trailing '-'
    removed. */
module ProductSlug {

  /** The characters the slug keeps as they are. */
  predicate IsSlugAlnum(c: char)
  {
    ('a' <= c <= 'z') || ('0' <= c <= '9')
  }

  /** A character that may appear in a slug. */
  predicate IsSlugChar(c: char)
  {
    IsSlugAlnum(c) || c == '-'
  }

  // ---------------------------------------------------------------------
  // String.prototype.toLowerCase, as far as the slug can tell

  /** The lower case of one character. Only the characters whose lower
      case contains a-z or 0-9 matter to the slug: the ASCII capitals, the
      dotted capital I (lower-cased to 'i' and a combining dot) and the
      Kelvin sign (lower-cased to 'k'). Every other character's lower case
      lies outside a-z and 0-9, like the character itself, so it is kept as
      it is here. */
  function LowerChar(c: char): (r: string)
    ensures IsSlugChar(c) ==> r == [c]
    ensures 1 <= |r| <= 2
  {
    if 'A' <= c <= 'Z' then [(c as int + 32) as char]
    else if c == '\U{130}' then "i\U{307}"
    else if c == '\U{212A}' then "k"
    else [c]
  }

  function LowerJS(s: string): (r: string)
    ensures (forall i :: 0 <= i < |s| ==> IsSlugChar(s[i])) ==> r == s
  {
    if s == [] then [] else LowerChar(s[0]) + LowerJS(s[1..])
  }

  // ---------------------------------------------------------------------
  // replace(/[^a-z0-9]+/g, '-')

  /** Drops the leading run of characters outside a-z and 0-9. */
  function SkipRun(s: string): (r: string)
    ensures |r| < |s| || r == s
    ensures r == s[|s| - |r|..]
    ensures r == [] || IsSlugAlnum(r[0])
  {
    if s != [] && !IsSlugAlnum(s[0]) then SkipRun(s[1..]) else s
  }

  predicate NoDoubleDash(s: string)
  {
    forall i :: 0 <= i < |s| - 1 ==> !(s[i] == '-' && s[i + 1] == '-')
  }

  /** The letters and digits of `s`, in order. */
  function Alnums(s: string): string
  {
    if s == [] then []
    else if IsSlugAlnum(s[0]) then [s[0]] + Alnums(s[1..])
    else Alnums(s[1..])
  }

  lemma {:induction false} AlnumsOfSkipped(s: string)
    ensures Alnums(SkipRun(s)) == Alnums(s)
  {
    if s != [] && !IsSlugAlnum(s[0]) {
      AlnumsOfSkipped(s[1..]);
    }
  }

  /** Every maximal run of characters outside a-z and 0-9 becomes one '-':
      the result uses only slug characters, never holds two dashes in a row,
      starts as `s` does and keeps the letters and digits of `s` in order. */
  function Collapse(s: string): (r: string)
    ensures forall i :: 0 <= i < |r| ==> IsSlugChar(r[i])
    ensures NoDoubleDash(r)
    ensures s == [] <==> r == []
    ensures s != [] && IsSlugAlnum(s[0]) ==> r[0] == s[0]
    ensures s != [] && !IsSlugAlnum(s[0]) ==> r[0] == '-'
    ensures Alnums(r) == Alnums(s)
    decreases |s|
  {
    if s == [] then []
    else if IsSlugAlnum(s[0]) then
      var rest := Collapse(s[1..]);
      assert ([s[0]] + rest)[1..] == rest;
      [s[0]] + rest
    else
      var t := SkipRun(s);
      var rest := Collapse(t);
      AlnumsOfSkipped(s);
      assert ("-" + rest)[1..] == rest;
      "-" + rest
  }

  // ---------------------------------------------------------------------
  // replace(/(^-|-$)/g, '')

  /** Removes one '-' at the start and one at the end. On "-" the start
      match consumes the only character, so nothing is left for the end. */
  function TrimDashes(s: string): (r: string)
    ensures |r| <= |s|
  {
    var a := if s != [] && s[0] == '-' then s[1..] else s;
    if a != [] && a[|a| - 1] == '-' then a[..|a| - 1] else a
  }

  /** The whole chain. */
  function Slugify(name: string): string
  {
    TrimDashes(Collapse(LowerJS(name)))
  }

  predicate IsSlug(s: string)
  {
    && (forall i :: 0 <= i < |s| ==> IsSlugChar(s[i]))
    && NoDoubleDash(s)
    && (s != [] ==> s[0] != '-' && s[|s| - 1] != '-')
  }

  lemma AlnumsOfDash(s: string)
    ensures Alnums("-" + s) == Alnums(s)
  {
    assert ("-" + s)[1..] == s;
  }

  lemma {:induction false} AlnumsOfDropLast(s: string)
    requires s != [] && s[|s| - 1] == '-'
    ensures Alnums(s[..|s| - 1]) == Alnums(s)
  {
    if |s| > 1 {
      assert s[1..][..|s[1..]| - 1] == s[..|s| - 1][1..];
      AlnumsOfDropLast(s[1..]);
    }
  }

  /** Trimming keeps the letters and digits. */
  lemma TrimKeepsAlnums(c: string)
    ensures Alnums(TrimDashes(c)) == Alnums(c)
  {
    var a := if c != [] && c[0] == '-' then c[1..] else c;
    if c != [] && c[0] == '-' {
      assert c == "-" + a;
      AlnumsOfDash(a);
    }
    if a != [] && a[|a| - 1] == '-' {
      AlnumsOfDropLast(a);
    }
  }

  /** Trimming a collapsed string yields a slug. */
  lemma TrimCollapsed(c: string)
    requires forall i :: 0 <= i < |c| ==> IsSlugChar(c[i])
    requires NoDoubleDash(c)
    ensures IsSlug(TrimDashes(c))
  {
    var a := if c != [] && c[0] == '-' then c[1..] else c;
    assert forall i :: 0 <= i < |a| ==> IsSlugChar(a[i]);
    assert NoDoubleDash(a);
    assert a != [] ==> a[0] != '-';
    if a != [] && a[|a| - 1] == '-' {
      var b := a[..|a| - 1];
      if b != [] {
        assert b[|b| - 1] == a[|a| - 2];
      }
    }
  }

  /** The produced slug uses only a-z, 0-9 and '-', never two dashes in a
      row, never a dash at either end, and keeps the letters and digits of
      the lower-cased name, in order. */
  lemma SlugifyShape(name: string)
    ensures IsSlug(Slugify(name))
    ensures Alnums(Slugify(name)) == Alnums(LowerJS(name))
  {
    TrimCollapsed(Collapse(LowerJS(name)));
    TrimKeepsAlnums(Collapse(LowerJS(name)));
  }

  /** A slug is determined by the letters and digits alone when there are
      none: a name without any gives the empty slug. */
  lemma {:induction false} NoAlnumsGivesEmpty(name: string)
    requires Alnums(LowerJS(name)) == []
    ensures Slugify(name) == ""
  {
    var c := Collapse(LowerJS(name));
    if c != [] {
      assert forall i :: 0 <= i < |c| ==> c[i] == '-' by {
        forall i | 0 <= i < |c| ensures c[i] == '-' {
          if IsSlugAlnum(c[i]) {
            AlnumsMember(c, i);
          }
        }
      }
      if |c| >= 2 {
        assert false;
      }
    }
  }

  lemma {:induction false} AlnumsMember(s: string, i: nat)
    requires i < |s| && IsSlugAlnum(s[i])
    ensures Alnums(s) != []
  {
    if i > 0 && !IsSlugAlnum(s[0]) {
      AlnumsMember(s[1..], i - 1);
    }
  }

  lemma {:induction false} CollapseOfSlugChars(s: string)
    requires forall i :: 0 <= i < |s| ==> IsSlugChar(s[i])
    requires NoDoubleDash(s)
    requires s != [] ==> s[|s| - 1] != '-'
    ensures Collapse(s) == s
    decreases |s|
  {
    if s != [] {
      if IsSlugAlnum(s[0]) {
        CollapseOfSlugChars(s[1..]);
      } else {
        assert |s| >= 2 && s[1] != '-';
        assert SkipRun(s) == s[1..];
        CollapseOfSlugChars(s[1..]);
      }
    }
  }

  /** Slugifying a slug gives it back: the suggestion is stable. */
  lemma SlugifyIdempotent(name: string)
    ensures Slugify(Slugify(name)) == Slugify(name)
  {
    var t := Slugify(name);
    SlugifyShape(name);
    assert LowerJS(t) == t;
    CollapseOfSlugChars(t);
  }

  /** The blur handler: a slug field that already holds a value is left
      alone; an empty one receives the slug of the name. */
  function OnNameBlur(name: string, slugField: string): (r: string)
    ensures slugField != "" ==> r == slugField
    ensures slugField == "" ==> IsSlug(r) && Alnums(r) == Alnums(LowerJS(name))
  {
    if slugField == "" then
      SlugifyShape(name);
      Slugify(name)
    else slugField
  }
}
