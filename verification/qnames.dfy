/** Qualified names of the provenance document. Every node and edge id lives in one
    namespace (the document's prefix), so a qualified name is determined by its local part,
    and this module works with local parts only. A local part is produced by
    `escapeForQName`, which replaces every character of a fixed set with an underscore. */
module QNames {

  /** The characters `escapeForQName` replaces, in the order its loop visits them. Each
      entry of the source's array is a regular expression matching exactly one of these. */
  const Forbidden: seq<char> :=
    ['=', '\'', '(', ')', ',', '_', ':', ';', '[', ']', '/',
     '\\', '?', '@', '~', '&', '+', '*', '#', '$', '^', '!', '<', '>', '%']

  predicate IsForbidden(c: char) {
    c in Forbidden
  }

  function EscapeChar(c: char): char {
    if IsForbidden(c) then '_' else c
  }

  /** `escapeForQName`, stated per character: each forbidden character becomes `_`,
      every other character stays where it is. */
  function Escape(s: string): (r: string)
    ensures |r| == |s|
    ensures forall i {:trigger r[i]} :: 0 <= i < |s| ==> (IsForbidden(s[i]) ==> r[i] == '_')
    ensures forall i {:trigger r[i]} :: 0 <= i < |s| ==> (!IsForbidden(s[i]) ==> r[i] == s[i])
  {
    seq(|s|, i requires 0 <= i < |s| => EscapeChar(s[i]))
  }

  /** `returnValue.replaceAll(pattern, "_")` for a pattern that matches the single
      character `f`. */
  function ReplaceAllChar(s: string, f: char): (r: string)
    ensures |r| == |s|
    ensures forall i :: 0 <= i < |s| ==> r[i] == (if s[i] == f then '_' else s[i])
  {
    seq(|s|, i requires 0 <= i < |s| => if s[i] == f then '_' else s[i])
  }

  /** The loop of `escapeForQName` as written: one `replaceAll` per forbidden character,
      in array order, each working on the previous one's output. */
  function EscapeSequential(s: string, fs: seq<char>): string
  {
    if |fs| == 0 then s else ReplaceAllChar(EscapeSequential(s, fs[..|fs| - 1]), fs[|fs| - 1])
  }

  /** After the first `n` replacements a character is `_` when it was one of the first `n`
      forbidden characters, and unchanged otherwise: `_` only ever maps to itself. */
  lemma {:induction false} EscapeSequentialPrefix(s: string, fs: seq<char>)
    ensures |EscapeSequential(s, fs)| == |s|
    ensures forall i :: 0 <= i < |s| ==>
              EscapeSequential(s, fs)[i] == (if s[i] in fs then '_' else s[i])
    decreases |fs|
  {
    if |fs| > 0 {
      var p := fs[..|fs| - 1];
      var f := fs[|fs| - 1];
      EscapeSequentialPrefix(s, p);
      assert fs == p + [f];
      forall i | 0 <= i < |s|
        ensures EscapeSequential(s, fs)[i] == (if s[i] in fs then '_' else s[i])
      {
        assert s[i] in fs <==> s[i] in p || s[i] == f;
      }
    }
  }

  /** The loop of replacements computes exactly the per-character escape. */
  lemma EscapeSequentialIsEscape(s: string)
    ensures EscapeSequential(s, Forbidden) == Escape(s)
  {
    EscapeSequentialPrefix(s, Forbidden);
  }

  /** No forbidden character other than `_` survives the escape. */
  lemma EscapeLeavesOnlyUnderscore(s: string)
    ensures forall i :: 0 <= i < |Escape(s)| ==> (IsForbidden(Escape(s)[i]) ==> Escape(s)[i] == '_')
  {
  }

  /** `_` is itself forbidden and maps to itself, so escaping twice is escaping once. */
  lemma EscapeIdempotent(s: string)
    ensures Escape(Escape(s)) == Escape(s)
  {
    assert IsForbidden('_');
  }

  /** A string is left alone exactly when it holds no forbidden character other than `_`. */
  lemma EscapeFixedPoint(s: string)
    ensures Escape(s) == s <==> forall i :: 0 <= i < |s| ==> (IsForbidden(s[i]) ==> s[i] == '_')
  {
    if Escape(s) == s {
      forall i | 0 <= i < |s| ensures IsForbidden(s[i]) ==> s[i] == '_' {
        assert Escape(s)[i] == s[i];
      }
    }
  }

  /** `qualifiedName(name1, name2, connector)`: the local part
      `escape(name1) + "__" + connector + "__" + escape(name2)`. */
  function EdgeLocal(entity: string, activity: string, rel: string): (r: string)
    ensures |r| == |entity| + |rel| + |activity| + 4
    ensures r[..|entity|] == Escape(entity)
    ensures r[|entity|..|entity| + 2] == "__" && r[|entity| + |rel| + 2..|entity| + |rel| + 4] == "__"
    ensures r[|entity| + 2..|entity| + |rel| + 2] == rel
    ensures r[|entity| + |rel| + 4..] == Escape(activity)
  {
    var r := Escape(entity) + "__" + rel + "__" + Escape(activity);
    assert r[..|entity|] == Escape(entity);
    assert r[|entity| + |rel| + 4..] == Escape(activity);
    r
  }

  /** The relation names the document builder passes as connector. */
  const GEN: string := "GEN"
  const USE: string := "USE"
  const CALL: string := "CALL"

  /** The same entity and activity give three different edge ids for the three relations. */
  lemma EdgeRelationsDistinct(entity: string, activity: string)
    ensures EdgeLocal(entity, activity, GEN) != EdgeLocal(entity, activity, USE)
    ensures EdgeLocal(entity, activity, GEN) != EdgeLocal(entity, activity, CALL)
    ensures EdgeLocal(entity, activity, USE) != EdgeLocal(entity, activity, CALL)
  {
    var n := |entity|;
    assert EdgeLocal(entity, activity, GEN)[n + 2] == 'G';
    assert EdgeLocal(entity, activity, USE)[n + 2] == 'U';
  }

  /** An edge id built from escaped names is itself an escaped name: its local part needs
      no further escaping. */
  lemma EdgeLocalIsEscaped(entity: string, activity: string, rel: string)
    requires forall i :: 0 <= i < |rel| ==> !IsForbidden(rel[i])
    ensures Escape(EdgeLocal(entity, activity, rel)) == EdgeLocal(entity, activity, rel)
  {
    var r := EdgeLocal(entity, activity, rel);
    EscapeIdempotent(entity);
    EscapeIdempotent(activity);
    assert IsForbidden('_');
    forall i | 0 <= i < |r| ensures Escape(r)[i] == r[i] {
      if i < |entity| {
        assert r[i] == Escape(entity)[i];
      } else if i < |entity| + 2 {
        assert r[i] == '_';
      } else if i < |entity| + |rel| + 2 {
        assert r[i] == rel[i - |entity| - 2];
      } else if i < |entity| + |rel| + 4 {
        assert r[i] == '_';
      } else {
        assert r[i] == Escape(activity)[i - |entity| - |rel| - 4];
      }
    }
  }
}
