/**
 * Rendering of the node bootstrap scripts (src/aws_cdk_apache_doris/user_data/__init__.py).
 * A template is plain text holding placeholders `__KEY__`; an ordered mapping of
 * bindings is applied one binding at a time, each as a Python `str.replace` on the
 * text produced so far. Template loading from disk is not modelled: templates are
 * opaque strings.
 */
module UserData {
  import opened Text

  /** One entry of the ordered replacement mapping: `__key__` becomes `value`. */
  datatype Binding = Binding(key: string, value: string)

  /** The placeholder text for a key. */
  function Token(key: string): (t: string)
    ensures |t| == |key| + 4
  {
    "__" + key + "__"
  }

  /** The keys of a binding list, in order. */
  function Keys(bindings: seq<Binding>): (ks: seq<string>)
    ensures |ks| == |bindings|
    ensures forall i :: 0 <= i < |bindings| ==> ks[i] == bindings[i].key
  {
    if |bindings| == 0 then [] else [bindings[0].key] + Keys(bindings[1..])
  }

  /** The text obtained by applying the bindings in order, each to the result of the previous ones. */
  function Render(template: string, bindings: seq<Binding>): string
    decreases |bindings|
  {
    if |bindings| == 0 then template
    else
      var last := bindings[|bindings| - 1];
      Replace(Render(template, bindings[..|bindings| - 1]), Token(last.key), last.value)
  }

  /** `render_user_data`: the loop that reassigns `rendered` once per binding. */
  method RenderUserData(template: string, replacements: seq<Binding>) returns (rendered: string)
    ensures rendered == Render(template, replacements)
  {
    rendered := template;
    var i := 0;
    while i < |replacements|
      invariant 0 <= i <= |replacements|
      invariant rendered == Render(template, replacements[..i])
    {
      var b := replacements[i];
      assert replacements[..i + 1][..i] == replacements[..i];
      rendered := Replace(rendered, Token(b.key), b.value);
      i := i + 1;
    }
    assert replacements[..|replacements|] == replacements;
  }

  /** Rendering with `b1 + b2` is rendering with `b1`, then rendering that result with `b2`. */
  lemma {:induction false} RenderAppend(template: string, b1: seq<Binding>, b2: seq<Binding>)
    ensures Render(template, b1 + b2) == Render(Render(template, b1), b2)
    decreases |b2|
  {
    if |b2| == 0 {
      assert b1 + b2 == b1;
    } else {
      var all := b1 + b2;
      assert all[..|all| - 1] == b1 + b2[..|b2| - 1];
      assert all[|all| - 1] == b2[|b2| - 1];
      RenderAppend(template, b1, b2[..|b2| - 1]);
    }
  }

  /** The first binding is applied to the template itself, and the rest to its result. */
  lemma RenderFirst(template: string, b: Binding, rest: seq<Binding>)
    ensures Render(template, [b] + rest) == Render(Replace(template, Token(b.key), b.value), rest)
  {
    RenderAppend(template, [b], rest);
    assert [b][..0] == [];
  }

  /** A single binding replaces every non-overlapping occurrence of its token: the
      result is the token-free pieces of the template joined by the value. */
  lemma RenderOneBinding(template: string, b: Binding)
    ensures Render(template, [b]) == Join(Split(template, Token(b.key)), b.value)
    ensures forall k :: 0 <= k < |Split(template, Token(b.key))| ==>
              !Contains(Split(template, Token(b.key))[k], Token(b.key))
  {
    assert [b][..0] == [];
    ReplaceIsJoinOfSplit(template, Token(b.key), b.value);
    SplitPiecesAvoidSeparator(template, Token(b.key));
  }

  /** A template holding none of the bindings' tokens comes back unchanged (in particular
      with no bindings at all). */
  lemma {:induction false} RenderUntouched(template: string, bindings: seq<Binding>)
    requires forall k :: 0 <= k < |bindings| ==> !Contains(template, Token(bindings[k].key))
    ensures Render(template, bindings) == template
    decreases |bindings|
  {
    if |bindings| > 0 {
      var last := bindings[|bindings| - 1];
      RenderUntouched(template, bindings[..|bindings| - 1]);
      ReplaceAbsent(template, Token(last.key), last.value);
    }
  }

  /** Substitution is not single-pass across keys: a later key rewrites a token that an
      earlier value inserted, so the order of the bindings matters. */
  lemma RenderRewritesInsertedTokens()
    ensures Render("__A__", [Binding("A", "__B__"), Binding("B", "x")]) == "x"
    ensures Render("__A__", [Binding("B", "x"), Binding("A", "__B__")]) == "__B__"
  {
    var ab := [Binding("A", "__B__"), Binding("B", "x")];
    assert ab[..1][..0] == [];
    assert Replace("__A__", "__A__", "__B__") == "__B__";
    assert Replace("__B__", "__B__", "x") == "x";
    var ba := [Binding("B", "x"), Binding("A", "__B__")];
    assert ba[..1][..0] == [];
    assert "__A__"[..5] != "__B__" by { assert "__A__"[2] != "__B__"[2]; }
    assert Replace("__A__", "__B__", "x") == "__A__";
  }

  /** Rendering twice with the same bindings can differ from rendering once: a value that
      contains its own token is expanded again. */
  lemma RenderNotIdempotent()
    ensures var b := [Binding("A", "__A__!")];
            Render(Render("__A__", b), b) != Render("__A__", b)
  {
    var b := [Binding("A", "__A__!")];
    assert b[..0] == [];
    assert Render("__A__", b) == "__A__!";
    assert Render("__A__!", b) == "__A__!!";
  }

  /** A token whose name is not a key survives on its own, but not when it shares its
      underscores with a replaced token. */
  lemma UnknownTokens()
    ensures Render("__X__", [Binding("A", "v")]) == "__X__"
    ensures Render("__A__X__", [Binding("A", "v")]) == "vX__"
    ensures !Contains("vX__", Token("X"))
  {
    var b := [Binding("A", "v")];
    assert b[..0] == [];
    assert "__X__"[..5] != "__A__" by { assert "__X__"[2] != "__A__"[2]; }
    assert Replace("__X__", "__A__", "v") == "__X__";
    assert "__A__X__"[..5] == "__A__";
    assert "__A__X__"[5..] == "X__";
    assert Replace("__A__X__", "__A__", "v") == "vX__";
  }
}
