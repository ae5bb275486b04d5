/**
 * The JavaScript string operations the assignment-name heuristics use, and the
 * heuristic itself: it recovers the name an assignment writes by slicing the
 * statement's source text rather than reading its target node.
 */
module Text {
  import opened Ast

  /** `s.startsWith(p)`. */
  predicate StartsWith(s: string, p: string)
  {
    |p| <= |s| && s[..|p|] == p
  }

  predicate OccursAt(s: string, p: string, i: nat)
  {
    i + |p| <= |s| && s[i..i + |p|] == p
  }

  /** `s.indexOf(p, from)`: the first occurrence of `p` at or after `from`. */
  function IndexOfFrom(s: string, p: string, from: nat): (r: Option<nat>)
    decreases |s| - from
    ensures r.Some? ==> from <= r.value && OccursAt(s, p, r.value)
    ensures r.Some? ==> forall j :: from <= j < r.value ==> !OccursAt(s, p, j)
    ensures r.None? ==> forall j :: from <= j ==> !OccursAt(s, p, j)
  {
    if from + |p| > |s| then None
    else if OccursAt(s, p, from) then Some(from)
    else IndexOfFrom(s, p, from + 1)
  }

  /** `s.replace(p, rep)` with a string pattern: only the first occurrence is replaced. */
  function ReplaceFirst(s: string, p: string, rep: string): string
  {
    match IndexOfFrom(s, p, 0)
    case None => s
    case Some(i) => s[..i] + rep + s[i + |p|..]
  }

  /** Drops the receiver when the text starts with it, by replacing its first occurrence with nothing. */
  function StripReceiver(content: string, receiver: string): (r: string)
    ensures StartsWith(content, receiver) ==> r == content[|receiver|..]
    ensures !StartsWith(content, receiver) ==> r == content
  {
    if StartsWith(content, receiver) then
      var i := IndexOfFrom(content, receiver, 0);
      assert OccursAt(content, receiver, 0);
      assert i == Some(0);
      ReplaceFirst(content, receiver, "")
    else content
  }

  /** `s.split(c)[0]` for a one-character separator. */
  function BeforeFirst(s: string, c: char): (r: string)
    ensures |r| <= |s| && r == s[..|r|]
    ensures c !in r
    ensures |r| < |s| ==> s[|r|] == c
  {
    if s == [] then []
    else if s[0] == c then []
    else [s[0]] + BeforeFirst(s[1..], c)
  }

  // The character class of the compound-operator pattern, written
  // `[+-/*//%]` in the source: the range `+-/` (that is `+ , - . /`)
  // followed by `*`, `/`, `/` and `%`.
  predicate IsCompoundOpChar(c: char)
  {
    '+' <= c <= '/' || c == '*' || c == '/' || c == '%'
  }

  // The compound-operator pattern `[+-/*//%]=` matches at `i`.
  predicate CompoundOpAt(s: string, i: nat)
  {
    i + 1 < |s| && IsCompoundOpChar(s[i]) && s[i + 1] == '='
  }

  // The first piece of a split on the compound-operator pattern: the text before the leftmost match.
  function BeforeFirstCompoundOp(s: string): (r: string)
    ensures |r| <= |s| && r == s[..|r|]
    ensures forall i :: 0 <= i < |r| ==> !CompoundOpAt(s, i)
    ensures |r| < |s| ==> CompoundOpAt(s, |r|)
  {
    if |s| < 2 then s
    else if CompoundOpAt(s, 0) then []
    else
      var rest := BeforeFirstCompoundOp(s[1..]);
      assert forall i :: 1 <= i < |s| ==> CompoundOpAt(s, i) == CompoundOpAt(s[1..], i - 1);
      [s[0]] + rest
  }

  /** The JavaScript `WhiteSpace` and `LineTerminator` code points that `trimEnd` removes. */
  predicate IsWhitespace(c: char)
  {
    c == ' ' || c == '\t' || c == '\n' || c == '\r' || c == '\U{000B}' || c == '\U{000C}'
    || c == '\U{00A0}' || c == '\U{FEFF}' || c == '\U{1680}' || ('\U{2000}' <= c <= '\U{200A}')
    || c == '\U{2028}' || c == '\U{2029}' || c == '\U{202F}' || c == '\U{205F}' || c == '\U{3000}'
  }

  /** `s.trimEnd()`. */
  function TrimEnd(s: string): (r: string)
    ensures |r| <= |s| && r == s[..|r|]
    ensures r == [] || !IsWhitespace(r[|r| - 1])
    ensures forall i :: |r| <= i < |s| ==> IsWhitespace(s[i])
  {
    if s == [] then []
    else if IsWhitespace(s[|s| - 1]) then TrimEnd(s[..|s| - 1])
    else s
  }

  /** The name cut from a plain assignment: the text before the first `=`, without trailing whitespace. */
  function PlainTarget(text: string): (name: string)
    ensures StartsWith(text, name) && '=' !in name
    ensures name == [] || !IsWhitespace(name[|name| - 1])
    ensures forall j :: |name| <= j < |text| && (forall i :: |name| <= i <= j ==> text[i] != '=')
              ==> IsWhitespace(text[j])
  {
    var cut := BeforeFirst(text, '=');
    var name := TrimEnd(cut);
    name
  }

  /** The name cut from an augmented assignment: the text before the leftmost compound-operator match, trimmed. */
  function CompoundTarget(text: string): (name: string)
    ensures StartsWith(text, name)
    ensures name == [] || !IsWhitespace(name[|name| - 1])
    ensures forall i :: 0 <= i < |name| ==> !CompoundOpAt(text, i)
    ensures forall j :: |name| <= j < |text| && (forall i :: 0 <= i <= j ==> !CompoundOpAt(text, i))
              ==> IsWhitespace(text[j])
  {
    var cut := BeforeFirstCompoundOp(text);
    var name := TrimEnd(cut);
    name
  }

  /**
   * The name an assignment statement writes, recovered from its source text:
   * strip a leading `receiver` (`self.` or `this.`), cut a plain assignment at
   * its first `=` and an augmented one at the first compound-operator match,
   * then trim trailing whitespace. Any other statement yields the empty string.
   */
  function AssignedName(receiver: string, s: Stmt): string
  {
    match s
    case Assign(_, contents, _, _) => PlainTarget(StripReceiver(contents, receiver))
    case AugmentedAssign(_, contents, _, _, _) => CompoundTarget(StripReceiver(contents, receiver))
    case _ => ""
  }

  // ---------------------------------------------------------------------------
  // What the heuristic recovers from well-formed assignment text
  // ---------------------------------------------------------------------------

  predicate AllWhitespace(ws: string)
  {
    forall i :: 0 <= i < |ws| ==> IsWhitespace(ws[i])
  }

  /** `(pre + [c] + post).split(c)[0] == pre` when `pre` holds no `c`. */
  lemma {:induction false} BeforeFirstOfConcat(pre: string, c: char, post: string)
    requires c !in pre
    ensures BeforeFirst(pre + [c] + post, c) == pre
  {
    var s := pre + [c] + post;
    if pre != [] {
      assert s[0] == pre[0] && s[1..] == pre[1..] + [c] + post;
      BeforeFirstOfConcat(pre[1..], c, post);
      assert [pre[0]] + pre[1..] == pre;
    }
  }

  /** Trailing whitespace after a word that does not end in whitespace is exactly what `trimEnd` drops. */
  lemma {:induction false} TrimEndOfPadded(word: string, ws: string)
    requires word == [] || !IsWhitespace(word[|word| - 1])
    requires AllWhitespace(ws)
    ensures TrimEnd(word + ws) == word
  {
    if ws == [] {
      assert word + ws == word;
    } else {
      var shorter := ws[..|ws| - 1];
      assert (word + ws)[..|word + ws| - 1] == word + shorter;
      TrimEndOfPadded(word, shorter);
    }
  }

  /** Cutting at the leftmost compound operator when the first one starts right after `pre`. */
  lemma BeforeFirstCompoundOpOfConcat(pre: string, op: char, post: string)
    requires IsCompoundOpChar(op)
    requires forall i :: 0 <= i < |pre| ==> !CompoundOpAt(pre + [op, '='] + post, i)
    ensures BeforeFirstCompoundOp(pre + [op, '='] + post) == pre
  {
    var s := pre + [op, '='] + post;
    var r := BeforeFirstCompoundOp(s);
    assert CompoundOpAt(s, |pre|);
    assert r == s[..|pre|] == pre;
  }

  /**
   * For the text `lhs ws= rest`, with `lhs` free of `=` and `ws` blank, the
   * plain-assignment cut recovers `lhs`.
   */
  lemma PlainTargetOfAssignment(lhs: string, ws: string, rest: string)
    requires '=' !in lhs && (lhs == [] || !IsWhitespace(lhs[|lhs| - 1]))
    requires AllWhitespace(ws)
    ensures PlainTarget(lhs + ws + "=" + rest) == lhs
  {
    assert '=' !in lhs + ws by {
      forall i | 0 <= i < |lhs + ws| ensures (lhs + ws)[i] != '=' {
        if i >= |lhs| {
          assert (lhs + ws)[i] == ws[i - |lhs|];
        }
      }
    }
    assert lhs + ws + "=" + rest == (lhs + ws) + ['='] + rest;
    BeforeFirstOfConcat(lhs + ws, '=', rest);
    TrimEndOfPadded(lhs, ws);
  }

  /**
   * For the text `lhs ws op= rest`, with `op` in the compound class, `lhs`
   * free of `=` and the operator separated from `lhs` by blanks or by a
   * character outside the class, the augmented-assignment cut recovers `lhs`.
   */
  lemma CompoundTargetOfAssignment(lhs: string, ws: string, op: char, rest: string)
    requires '=' !in lhs && (lhs == [] || !IsWhitespace(lhs[|lhs| - 1]))
    requires AllWhitespace(ws)
    requires IsCompoundOpChar(op)
    requires ws == [] && lhs != [] ==> !IsCompoundOpChar(lhs[|lhs| - 1])
    ensures CompoundTarget(lhs + ws + [op, '='] + rest) == lhs
  {
    var pre := lhs + ws;
    var s := pre + [op, '='] + rest;
    assert lhs + ws + [op, '='] + rest == s;
    forall i | 0 <= i < |pre| ensures !CompoundOpAt(s, i) {
      if i + 1 < |lhs| {
        assert s[i + 1] == lhs[i + 1];
      } else if i + 1 < |pre| {
        assert s[i + 1] == ws[i + 1 - |lhs|];
      } else if ws != [] {
        assert s[i] == ws[|ws| - 1];
      } else {
        assert s[i] == lhs[|lhs| - 1];
      }
    }
    BeforeFirstCompoundOpOfConcat(pre, op, rest);
    TrimEndOfPadded(lhs, ws);
  }

  /**
   * The name of a plain assignment whose text is `receiver lhs ws= rest`:
   * the receiver is dropped and the rest cut at the first `=`.
   */
  lemma AssignedNameOfPlain(receiver: string, s: Stmt, lhs: string, ws: string, rest: string)
    requires s.Assign? && s.contents == receiver + (lhs + ws + "=" + rest)
    requires '=' !in lhs && (lhs == [] || !IsWhitespace(lhs[|lhs| - 1]))
    requires AllWhitespace(ws)
    ensures AssignedName(receiver, s) == lhs
  {
    StripGivenReceiver(receiver, lhs + ws + "=" + rest);
    PlainTargetOfAssignment(lhs, ws, rest);
  }

  /** Stripping the receiver from a text that starts with it leaves the rest. */
  lemma StripGivenReceiver(receiver: string, rest: string)
    ensures StripReceiver(receiver + rest, receiver) == rest
  {
    assert (receiver + rest)[..|receiver|] == receiver;
    assert (receiver + rest)[|receiver|..] == rest;
  }

  /** Without the receiver in front, the text is cut as it is. */
  lemma AssignedNameOfPlainWithoutReceiver(receiver: string, s: Stmt, lhs: string, ws: string, rest: string)
    requires s.Assign? && s.contents == lhs + ws + "=" + rest && !StartsWith(s.contents, receiver)
    requires '=' !in lhs && (lhs == [] || !IsWhitespace(lhs[|lhs| - 1]))
    requires AllWhitespace(ws)
    ensures AssignedName(receiver, s) == lhs
  {
    PlainTargetOfAssignment(lhs, ws, rest);
  }

  /** The augmented-assignment counterpart of `AssignedNameOfPlain`. */
  lemma AssignedNameOfCompound(receiver: string, s: Stmt, lhs: string, ws: string, op: char, rest: string)
    requires s.AugmentedAssign? && s.contents == receiver + (lhs + ws + [op, '='] + rest)
    requires '=' !in lhs && (lhs == [] || !IsWhitespace(lhs[|lhs| - 1]))
    requires AllWhitespace(ws)
    requires IsCompoundOpChar(op)
    requires ws == [] && lhs != [] ==> !IsCompoundOpChar(lhs[|lhs| - 1])
    ensures AssignedName(receiver, s) == lhs
  {
    var text := lhs + ws + [op, '='] + rest;
    StripGivenReceiver(receiver, text);
    CompoundTargetOfAssignment(lhs, ws, op, rest);
    assert AssignedName(receiver, s) == CompoundTarget(text);
  }

  /** Without the receiver in front, the augmented-assignment text is cut as it is. */
  lemma AssignedNameOfCompoundWithoutReceiver(receiver: string, s: Stmt, lhs: string, ws: string, op: char, rest: string)
    requires s.AugmentedAssign? && s.contents == lhs + ws + [op, '='] + rest && !StartsWith(s.contents, receiver)
    requires '=' !in lhs && (lhs == [] || !IsWhitespace(lhs[|lhs| - 1]))
    requires AllWhitespace(ws)
    requires IsCompoundOpChar(op)
    requires ws == [] && lhs != [] ==> !IsCompoundOpChar(lhs[|lhs| - 1])
    ensures AssignedName(receiver, s) == lhs
  {
    CompoundTargetOfAssignment(lhs, ws, op, rest);
  }

  /** A single `=` preceded by a character outside the class leaves no compound-operator match. */
  lemma NoCompoundOpAroundSingleEquals(pre: string, post: string)
    requires '=' !in pre && '=' !in post
    requires pre == [] || !IsCompoundOpChar(pre[|pre| - 1])
    ensures forall i :: 0 <= i < |pre + "=" + post| ==> !CompoundOpAt(pre + "=" + post, i)
  {
    var t := pre + "=" + post;
    forall i | 0 <= i < |t| ensures !CompoundOpAt(t, i) {
      if i + 1 < |pre| {
        assert t[i + 1] == pre[i + 1];
      } else if i + 1 == |pre| {
        assert t[i] == pre[|pre| - 1];
      } else if i + 1 < |t| {
        assert t[i + 1] == post[i - |pre|];
      }
    }
  }

  /** Text without any compound-operator match is kept whole (only trailing blanks go). */
  lemma CompoundTargetWithoutOperator(text: string)
    requires forall i :: 0 <= i < |text| ==> !CompoundOpAt(text, i)
    requires text != [] && !IsWhitespace(text[|text| - 1])
    ensures CompoundTarget(text) == text
  {
    var cut := BeforeFirstCompoundOp(text);
    assert cut == text;
    assert text + [] == text;
    TrimEndOfPadded(text, []);
  }
}
