/**
 * The view fragment rendered under every field: inside an always-present `below-wrapper`
 * it shows the below text, the help text and the validation errors for the field's key
 * and for the items under it (`key.*`).
 */
module Below {
  import opened Php

  /** The descriptor state the fragment reads. */
  datatype View = View(
    fieldType: string,
    below: Option<string>,
    help: Option<string>,
    errorMsg: Option<string>,
    defaultErrorPosition: bool)

  /** One element rendered inside the below-wrapper. */
  datatype Block =
    | BelowText(text: string)        // the `below` attribute slot holding the below text
    | HelpText(text: string)         // the `tf-help` paragraph
    | KeyError(message: string)      // the `tf-error` paragraph for an error on the key
    | WildcardError(message: string) // the `tf-error` paragraph for an error on `key.*`

  /** The place of each kind of block in the wrapper. */
  function Position(b: Block): nat
  {
    match b
    case BelowText(_) => 0
    case HelpText(_) => 1
    case KeyError(_) => 2
    case WildcardError(_) => 3
  }

  /** Help is rendered by the fragment except for tag inputs, which show it themselves. */
  predicate ShowsHelp(v: View)
  {
    v.fieldType != "spatie-tags"
  }

  /** Errors are rendered here only at the default position and not for file or tag inputs. */
  predicate ShowsErrors(v: View)
  {
    v.defaultErrorPosition && v.fieldType != "file" && v.fieldType != "spatie-tags"
  }

  /** `$field->errorMsg ?? $message`: a custom message, even an empty one, wins. */
  function ErrorText(errorMsg: Option<string>, message: string): string
  {
    errorMsg.Coalesce(message)
  }

  /**
   * The condition under which the fragment shows block `b`, with exactly that text. Each
   * error signal is None when the error bag's `has` is false for the key (or `key.*`), which
   * includes a first message that is empty; otherwise it is that first message.
   */
  predicate Shown(v: View, keyError: Option<string>, wildcardError: Option<string>, b: Block)
  {
    match b
    case BelowText(t) => Truthy(v.below) && t == v.below.value
    case HelpText(t) => ShowsHelp(v) && Truthy(v.help) && t == v.help.value
    case KeyError(m) => ShowsErrors(v) && keyError.Some? && m == ErrorText(v.errorMsg, keyError.value)
    case WildcardError(m) =>
      ShowsErrors(v) && wildcardError.Some? && m == ErrorText(v.errorMsg, wildcardError.value)
  }

  /** Blocks in the fixed order below, help, key error, wildcard error, each kind at most once. */
  predicate Ordered(r: seq<Block>)
  {
    forall i, j :: 0 <= i < j < |r| ==> Position(r[i]) < Position(r[j])
  }

  /** Appending blocks that all come later in the order keeps a list ordered. */
  lemma OrderedAppend(a: seq<Block>, b: seq<Block>)
    requires Ordered(a) && Ordered(b)
    requires forall x, y :: x in a && y in b ==> Position(x) < Position(y)
    ensures Ordered(a + b)
  {
    forall i, j | 0 <= i < j < |a + b|
      ensures Position((a + b)[i]) < Position((a + b)[j])
    {
      if j < |a| {
        assert (a + b)[i] == a[i] && (a + b)[j] == a[j];
      } else if |a| <= i {
        assert (a + b)[i] == b[i - |a|] && (a + b)[j] == b[j - |a|];
      } else {
        assert (a + b)[i] in a && (a + b)[j] in b;
      }
    }
  }

  /** Lines 2-6: the below text, when `below` is truthy. */
  function BelowPart(v: View, keyError: Option<string>, wildcardError: Option<string>): (r: seq<Block>)
    ensures |r| <= 1
    ensures forall b :: b in r <==> b.BelowText? && Shown(v, keyError, wildcardError, b)
  {
    if Truthy(v.below) then [BelowText(v.below.value)] else []
  }

  /** Lines 7-13: the help paragraph, when the type shows help and `help` is truthy. */
  function HelpPart(v: View, keyError: Option<string>, wildcardError: Option<string>): (r: seq<Block>)
    ensures |r| <= 1
    ensures forall b :: b in r <==> b.HelpText? && Shown(v, keyError, wildcardError, b)
  {
    if ShowsHelp(v) && Truthy(v.help) then [HelpText(v.help.value)] else []
  }

  /** Lines 14-25: the key error, then the wildcard error, when errors are shown here. */
  function ErrorPart(v: View, keyError: Option<string>, wildcardError: Option<string>): (r: seq<Block>)
    ensures Ordered(r)
    ensures forall b :: b in r <==> (b.KeyError? || b.WildcardError?) && Shown(v, keyError, wildcardError, b)
  {
    var keyErr := if keyError.Some? then [KeyError(ErrorText(v.errorMsg, keyError.value))] else [];
    var wildErr :=
      if wildcardError.Some? then [WildcardError(ErrorText(v.errorMsg, wildcardError.value))] else [];
    OrderedAppend(keyErr, wildErr);
    if ShowsErrors(v) then keyErr + wildErr else []
  }

  /** The blocks inside the below-wrapper: exactly the shown ones, in order. */
  function Render(v: View, keyError: Option<string>, wildcardError: Option<string>): (r: seq<Block>)
    ensures forall b :: b in r <==> Shown(v, keyError, wildcardError, b)
    ensures Ordered(r)
  {
    var below := BelowPart(v, keyError, wildcardError);
    var help := HelpPart(v, keyError, wildcardError);
    var errors := ErrorPart(v, keyError, wildcardError);
    OrderedAppend(below, help);
    OrderedAppend(below + help, errors);
    below + help + errors
  }

  /** Two ordered block lists holding the same blocks are the same list. */
  lemma {:induction false} OrderedUnique(r: seq<Block>, s: seq<Block>)
    requires Ordered(r) && Ordered(s)
    requires forall b :: b in r <==> b in s
    ensures r == s
    decreases |r|
  {
    assert r != [] ==> r[0] in s;
    assert s != [] ==> s[0] in r;
    if r != [] {
      assert r[0] == s[0];
      forall b
        ensures b in r[1..] <==> b in s[1..]
      {
        if b in r[1..] {
          var i :| 1 <= i < |r| && r[i] == b;
          assert b in r;
          var k :| 0 <= k < |s| && s[k] == b;
          assert Position(s[0]) < Position(b);
          assert s[1..][k - 1] == b;
        }
        if b in s[1..] {
          var k :| 1 <= k < |s| && s[k] == b;
          assert b in s;
          var i :| 0 <= i < |r| && r[i] == b;
          assert Position(r[0]) < Position(b);
          assert r[1..][i - 1] == b;
        }
      }
      OrderedUnique(r[1..], s[1..]);
    }
  }

  /** The rendered blocks are the only ordered list of exactly the shown blocks. */
  lemma RenderIsDetermined(v: View, keyError: Option<string>, wildcardError: Option<string>, r: seq<Block>)
    requires forall b :: b in r <==> Shown(v, keyError, wildcardError, b)
    requires Ordered(r)
    ensures r == Render(v, keyError, wildcardError)
  {
    OrderedUnique(r, Render(v, keyError, wildcardError));
  }

  /**
   * The key and wildcard error paragraphs are independent: each appears exactly when the
   * error display is enabled and the validator has an error for it, so zero, one or two
   * appear; and some error appears exactly when the display is enabled and either has one.
   */
  lemma ErrorTruthTable(v: View, keyError: Option<string>, wildcardError: Option<string>)
    ensures (exists b :: b in Render(v, keyError, wildcardError) && b.KeyError?)
            <==> ShowsErrors(v) && keyError.Some?
    ensures (exists b :: b in Render(v, keyError, wildcardError) && b.WildcardError?)
            <==> ShowsErrors(v) && wildcardError.Some?
    ensures (exists b :: b in Render(v, keyError, wildcardError) && (b.KeyError? || b.WildcardError?))
            <==> ShowsErrors(v) && (keyError.Some? || wildcardError.Some?)
  {
    var r := Render(v, keyError, wildcardError);
    if ShowsErrors(v) && keyError.Some? {
      assert KeyError(ErrorText(v.errorMsg, keyError.value)) in r;
    }
    if ShowsErrors(v) && wildcardError.Some? {
      assert WildcardError(ErrorText(v.errorMsg, wildcardError.value)) in r;
    }
  }
}
