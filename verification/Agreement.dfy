/**
 * The agreement text of client/components/decision/agreement/agreement.js:
 * placeholder substitution in a contract's description, display names, and the
 * editor's placeholder flag.
 */
module Agreement {
  import opened Wrappers

  /** A user profile; either name may be absent. */
  datatype Profile = Profile(firstName: Option<string>, lastName: Option<string>)

  /** A TypeError thrown when the session holds no profile for a signer's role. */
  datatype ScriptError = MissingProfile(role: string)

  const SpanOpen: string := "<span class='dynamic-text'>"
  const SpanClose: string := "</span>"

  /** `getProfileName`: the first name, then a space and the last name when there is one. */
  function ProfileName(p: Profile): (name: string)
    ensures var first := p.firstName.GetOr("");
      && |name| == |first| + (if p.lastName.Some? then 1 + |p.lastName.value| else 0)
      && name[..|first|] == first
      && (p.lastName.Some? ==> name[|first|..] == " " + p.lastName.value)
  {
    var first := p.firstName.GetOr("");
    match p.lastName
    case Some(last) => first + " " + last
    case None => first
  }

  /** `pat` occurs in `s` starting at index `i`. */
  predicate OccursAt(s: string, pat: string, i: nat) {
    i + |pat| <= |s| && s[i..i + |pat|] == pat
  }

  /** The first occurrence of `pat` in `s` starts at index `i`. */
  ghost predicate FirstAt(s: string, pat: string, i: nat) {
    OccursAt(s, pat, i) && forall j :: 0 <= j < i ==> !OccursAt(s, pat, j)
  }

  /** `s.indexOf(pat, from)`: the first occurrence at or after `from`. */
  function IndexOf(s: string, pat: string, from: nat): (r: Option<nat>)
    decreases |s| - from
    ensures r.Some? ==> from <= r.value && OccursAt(s, pat, r.value) &&
                        forall j :: from <= j < r.value ==> !OccursAt(s, pat, j)
    ensures r.None? ==> forall j :: from <= j ==> !OccursAt(s, pat, j)
  {
    if |s| < from + |pat| then None
    else if OccursAt(s, pat, from) then Some(from)
    else IndexOf(s, pat, from + 1)
  }

  /**
   * The text a string replacement value stands for when a string pattern
   * matched: `$$` is a dollar sign, `$&` the match, `` $` `` the text before it
   * and `$'` the text after it; every other character stands for itself.
   */
  function Substitution(rep: string, matched: string, before: string, after: string): (r: string)
    ensures '$' !in rep ==> r == rep
  {
    if |rep| >= 2 && rep[0] == '$' && rep[1] in "$&`'" then
      var piece := match rep[1]
        case '$' => "$"
        case '&' => matched
        case '`' => before
        case _ => after;
      piece + Substitution(rep[2..], matched, before, after)
    else if rep == [] then []
    else [rep[0]] + Substitution(rep[1..], matched, before, after)
  }

  /** `s.replace(pat, rep)` with a string pattern: only the first occurrence is replaced. */
  function ReplaceFirst(s: string, pat: string, rep: string): (r: string)
    ensures (forall j :: !OccursAt(s, pat, j)) ==> r == s
    ensures forall i: nat {:trigger FirstAt(s, pat, i)} :: FirstAt(s, pat, i) ==>
              r == s[..i] + Substitution(rep, pat, s[..i], s[i + |pat|..]) + s[i + |pat|..]
  {
    match IndexOf(s, pat, 0)
    case None => s
    case Some(i) => s[..i] + Substitution(rep, pat, s[..i], s[i + |pat|..]) + s[i + |pat|..]
  }

  /** A resolved value as it is shown in the agreement. */
  function Wrap(value: string): string {
    SpanOpen + value + SpanClose
  }

  /** The text has none of the three placeholders. */
  ghost predicate NoTokens(text: string) {
    forall j :: !OccursAt(text, "<delegator>", j) && !OccursAt(text, "<delegate>", j) && !OccursAt(text, "<votes>", j)
  }

  /**
   * `dynamicTextCheck`: for a delegation contract, put the delegator's and the
   * delegate's names and the vote count in place of the first `<delegator>`,
   * `<delegate>` and `<votes>`; any other kind of contract keeps its text.
   * The names come from the session's DELEGATOR and DELEGATE users, whose
   * absence throws.
   */
  function DynamicTextCheck(text: string, kind: string, delegator: Option<Profile>, delegate: Option<Profile>)
    : (r: Result<string, ScriptError>)
    ensures kind != "DELEGATION" ==> r == Success(text)
    ensures kind == "DELEGATION" && delegator.None? ==> r == Failure(MissingProfile("DELEGATOR"))
    ensures kind == "DELEGATION" && delegator.Some? && delegate.None? ==> r == Failure(MissingProfile("DELEGATE"))
    ensures r.Success? <==> kind != "DELEGATION" || (delegator.Some? && delegate.Some?)
    ensures r.Success? && NoTokens(text) ==> r.value == text
  {
    if kind != "DELEGATION" then Success(text)
    else if delegator.None? then Failure(MissingProfile("DELEGATOR"))
    else if delegate.None? then Failure(MissingProfile("DELEGATE"))
    else
      var named := ReplaceFirst(text, "<delegator>", Wrap(ProfileName(delegator.value)));
      var both := ReplaceFirst(named, "<delegate>", Wrap(ProfileName(delegate.value)));
      Success(ReplaceFirst(both, "<votes>", Wrap("000")))
  }

  /** A `$` pattern at the head of a replacement value stands for its piece, followed by the rest. */
  lemma DollarPattern(c: char, t: string, matched: string, before: string, after: string)
    requires c in "$&`'"
    ensures Substitution(['$', c] + t, matched, before, after)
            == (match c
                case '$' => "$"
                case '&' => matched
                case '`' => before
                case _ => after) + Substitution(t, matched, before, after)
  {
    assert (['$', c] + t)[2..] == t;
  }

  /**
   * A replacement value `$'` stands for the text after the match, so the
   * text after the first occurrence ends up twice in the result.
   */
  lemma ReplaceWithAfter(s: string, pat: string, i: nat)
    requires FirstAt(s, pat, i)
    ensures ReplaceFirst(s, pat, "$'") == s[..i] + s[i + |pat|..] + s[i + |pat|..]
  {
    var after := s[i + |pat|..];
    assert Substitution("$'", pat, s[..i], after) == after by {
      DollarPattern('\'', [], pat, s[..i], after);
      assert ['$', '\''] + [] == "$'";
    }
  }

  /**
   * A replacement without `$` can be undone: putting the pattern back in
   * place of the inserted text gives the original string.
   */
  lemma ReplaceFirstUndo(s: string, pat: string, rep: string, i: nat)
    requires '$' !in rep
    requires FirstAt(s, pat, i)
    ensures var r := ReplaceFirst(s, pat, rep);
      |r| == |s| - |pat| + |rep| && r[i..i + |rep|] == rep && r[..i] + pat + r[i + |rep|..] == s
  {
    var r := ReplaceFirst(s, pat, rep);
    assert r == s[..i] + rep + s[i + |pat|..];
    assert r[..i] == s[..i];
    assert r[i + |rep|..] == s[i + |pat|..];
    assert s == s[..i] + s[i..i + |pat|] + s[i + |pat|..];
  }

  /**
   * Only the first occurrence is replaced: every later occurrence of the
   * pattern is still there, shifted by the change in length.
   */
  lemma ReplaceFirstKeepsLater(s: string, pat: string, rep: string, i: nat, k: nat)
    requires FirstAt(s, pat, i)
    requires i + |pat| <= k && OccursAt(s, pat, k)
    ensures var inserted := |Substitution(rep, pat, s[..i], s[i + |pat|..])|;
      OccursAt(ReplaceFirst(s, pat, rep), pat, k - |pat| + inserted)
  {
    var sub := Substitution(rep, pat, s[..i], s[i + |pat|..]);
    SplicedKeepsLater(s, pat, i, k, sub, ReplaceFirst(s, pat, rep));
  }

  /** Splicing `sub` in place of `s[i..i + |pat|]` keeps a later occurrence, shifted. */
  lemma SplicedKeepsLater(s: string, pat: string, i: nat, k: nat, sub: string, spliced: string)
    requires i + |pat| <= k && OccursAt(s, pat, k)
    requires spliced == s[..i] + sub + s[i + |pat|..]
    ensures OccursAt(spliced, pat, k - |pat| + |sub|)
  {
    var head := s[..i] + sub;
    var tail := s[i + |pat|..];
    OccursInSuffix(s, pat, i + |pat|, k);
    OccursAfterPrefix(head, tail, pat, k - i - |pat|);
    assert |head| + (k - i - |pat|) == k - |pat| + |sub|;
  }

  /** An occurrence at or after `from` is an occurrence in the suffix from there. */
  lemma OccursInSuffix(s: string, pat: string, from: nat, k: nat)
    requires from <= k && OccursAt(s, pat, k)
    ensures OccursAt(s[from..], pat, k - from)
  {
    assert s[from..][k - from..k - from + |pat|] == s[k..k + |pat|];
  }

  /** An occurrence in the second part of a concatenation. */
  lemma OccursAfterPrefix(head: string, tail: string, pat: string, m: nat)
    requires OccursAt(tail, pat, m)
    ensures OccursAt(head + tail, pat, |head| + m)
  {
    assert (head + tail)[|head| + m..|head| + m + |pat|] == tail[m..m + |pat|];
  }

  /** The vote count is always shown as a wrapped `000`. */
  lemma VotesShownAsZeros(s: string, i: nat)
    requires FirstAt(s, "<votes>", i)
    ensures ReplaceFirst(s, "<votes>", Wrap("000")) == s[..i] + "<span class='dynamic-text'>000</span>" + s[i + 7..]
  {
    assert '$' !in Wrap("000");
  }

  /** Every `<` in `t` is followed by a character outside `bad`. */
  ghost predicate OpenersBefore(t: string, bad: set<char>) {
    forall j :: 0 <= j < |t| && t[j] == '<' ==> j + 1 < |t| && t[j + 1] !in bad
  }

  lemma OpenersConcat(a: string, b: string, bad: set<char>)
    requires OpenersBefore(a, bad) && OpenersBefore(b, bad)
    ensures OpenersBefore(a + b, bad)
  {
    forall j | 0 <= j < |a + b| && (a + b)[j] == '<'
      ensures j + 1 < |a + b| && (a + b)[j + 1] !in bad
    {
      if j < |a| {
        assert a[j] == '<';
      } else {
        assert b[j - |a|] == '<';
      }
    }
  }

  lemma OpenersWeaken(t: string, bad: set<char>, fewer: set<char>)
    requires OpenersBefore(t, bad) && fewer <= bad
    ensures OpenersBefore(t, fewer)
  {
  }

  lemma TagStart(t: string, tag: string, j: nat)
    requires |tag| >= 2 && OccursAt(t, tag, j)
    ensures t[j] == tag[0] && t[j + 1] == tag[1]
  {
    assert t[j] == t[j..j + |tag|][0];
    assert t[j + 1] == t[j..j + |tag|][1];
  }

  /** Text in which no `<` is followed by `d` or `v` holds no placeholder after `<delegator>`. */
  lemma NoLaterTokens(t: string)
    requires OpenersBefore(t, {'d', 'v'})
    ensures forall j: nat :: !OccursAt(t, "<delegate>", j) && !OccursAt(t, "<votes>", j)
  {
    forall j: nat ensures !OccursAt(t, "<delegate>", j) && !OccursAt(t, "<votes>", j) {
      if OccursAt(t, "<delegate>", j) {
        TagStart(t, "<delegate>", j);
        assert false;
      }
      if OccursAt(t, "<votes>", j) {
        TagStart(t, "<votes>", j);
        assert false;
      }
    }
  }

  /** A tag cannot start inside a prefix in which no `<` is followed by the tag's second character. */
  lemma NoTagInPrefix(pre: string, rest: string, tag: string, bad: set<char>)
    requires OpenersBefore(pre, bad)
    requires |tag| >= 2 && tag[0] == '<' && tag[1] in bad
    ensures forall j: nat :: j < |pre| ==> !OccursAt(pre + rest, tag, j)
  {
    forall j: nat | j < |pre| ensures !OccursAt(pre + rest, tag, j) {
      if OccursAt(pre + rest, tag, j) {
        TagStart(pre + rest, tag, j);
        assert false;
      }
    }
  }

  /** Replacing a tag that first occurs right after such a prefix. */
  lemma ReplaceAfterPrefix(pre: string, tag: string, rest: string, rep: string, bad: set<char>)
    requires OpenersBefore(pre, bad)
    requires |tag| >= 2 && tag[0] == '<' && tag[1] in bad
    requires '$' !in rep
    ensures ReplaceFirst(pre + tag + rest, tag, rep) == pre + rep + rest
  {
    var t := pre + tag + rest;
    assert t == pre + (tag + rest);
    NoTagInPrefix(pre, tag + rest, tag, bad);
    assert t[|pre|..|pre| + |tag|] == tag;
    assert FirstAt(t, tag, |pre|);
    assert t[..|pre|] == pre;
    assert t[|pre| + |tag|..] == rest;
  }

  /** A text without `<` opens no tag at all. */
  lemma NoOpeners(t: string, bad: set<char>)
    requires '<' !in t
    ensures OpenersBefore(t, bad)
  {
    forall j | 0 <= j < |t| ensures t[j] != '<' {
      assert t[j] in t;
    }
  }

  /** A wrapped value holds no `$`, and its span tags open with `s` and `/`. */
  lemma WrapOpeners(value: string, bad: set<char>)
    requires OpenersBefore(value, bad) && '$' !in value
    requires 's' !in bad && '/' !in bad
    ensures OpenersBefore(Wrap(value), bad) && '$' !in Wrap(value)
  {
    assert OpenersBefore(SpanOpen, bad);
    assert OpenersBefore(SpanClose, bad);
    OpenersConcat(SpanOpen, value, bad);
    OpenersConcat(SpanOpen + value, SpanClose, bad);
  }

  lemma OpenersThree(pre: string, w: string, b: string, bad: set<char>)
    requires OpenersBefore(pre, bad) && OpenersBefore(w, bad) && OpenersBefore(b, bad)
    ensures OpenersBefore(pre + w + b, bad)
  {
    OpenersConcat(pre, w, bad);
    OpenersConcat(pre + w, b, bad);
  }

  /** The three ways a seven-piece concatenation is grouped while its placeholders are replaced. */
  lemma Regroup(p: string, q: string, r: string, s: string, t: string, u: string, v: string)
    ensures p + q + r + s + t + u + v == p + q + (r + s + t + u + v)
    ensures p + q + (r + s + t + u + v) == (p + q + r) + s + (t + u + v)
    ensures (p + q + r) + s + (t + u + v) == p + q + r + s + t + u + v
  {
  }

  /** Replacing the second of seven pieces, a tag that first occurs there. */
  lemma ReplaceSecond(p: string, q: string, r: string, s: string, t: string, u: string, v: string,
                      rep: string, bad: set<char>)
    requires OpenersBefore(p, bad)
    requires |q| >= 2 && q[0] == '<' && q[1] in bad && '$' !in rep
    ensures ReplaceFirst(p + q + r + s + t + u + v, q, rep) == p + rep + r + s + t + u + v
  {
    Regroup(p, q, r, s, t, u, v);
    Regroup(p, rep, r, s, t, u, v);
    ReplaceAfterPrefix(p, q, r + s + t + u + v, rep, bad);
  }

  /** Replacing the fourth of seven pieces, a tag that first occurs there. */
  lemma ReplaceFourth(p: string, q: string, r: string, s: string, t: string, u: string, v: string,
                      rep: string, bad: set<char>)
    requires OpenersBefore(p + q + r, bad)
    requires |s| >= 2 && s[0] == '<' && s[1] in bad && '$' !in rep
    ensures ReplaceFirst(p + q + r + s + t + u + v, s, rep) == p + q + r + rep + t + u + v
  {
    Regroup(p, q, r, s, t, u, v);
    Regroup(p, q, r, rep, t, u, v);
    ReplaceAfterPrefix(p + q + r, s, t + u + v, rep, bad);
  }

  /** Replacing the sixth of seven pieces, a tag that first occurs there. */
  lemma ReplaceSixth(p: string, q: string, r: string, s: string, t: string, u: string, v: string,
                     rep: string, bad: set<char>)
    requires OpenersBefore(p + q + r + s + t, bad)
    requires |u| >= 2 && u[0] == '<' && u[1] in bad && '$' !in rep
    ensures ReplaceFirst(p + q + r + s + t + u + v, u, rep) == p + q + r + s + t + rep + v
  {
    ReplaceAfterPrefix(p + q + r + s + t, u, v, rep, bad);
  }

  /** A profile name that may be shown inside a dynamic text: no `$`, and no `<` opening `d` or `v`. */
  ghost predicate ShowableName(p: Profile) {
    OpenersBefore(ProfileName(p), {'d', 'v'}) && '$' !in ProfileName(p)
  }

  /** The delegation branch is the three replacements, one after another. */
  lemma DelegationSteps(text: string, delegator: Profile, delegate: Profile, named: string, both: string, out: string)
    requires ReplaceFirst(text, "<delegator>", Wrap(ProfileName(delegator))) == named
    requires ReplaceFirst(named, "<delegate>", Wrap(ProfileName(delegate))) == both
    requires ReplaceFirst(both, "<votes>", Wrap("000")) == out
    ensures DynamicTextCheck(text, "DELEGATION", Some(delegator), Some(delegate)) == Success(out)
  {
  }

  /**
   * Replacing the placeholders in the delegation order, in a text holding each
   * once, in order, between pieces that open no tag starting with a later
   * placeholder's letter.
   */
  lemma PlaceholdersInOrder(a: string, b: string, c: string, d: string, w1: string, w2: string, w3: string)
    requires OpenersBefore(a, {'d', 'v'}) && OpenersBefore(b, {'d', 'v'}) && OpenersBefore(c, {'v'})
    requires OpenersBefore(w1, {'d', 'v'}) && OpenersBefore(w2, {'d', 'v'})
    requires '$' !in w1 && '$' !in w2 && '$' !in w3
    ensures ReplaceFirst(a + "<delegator>" + b + "<delegate>" + c + "<votes>" + d, "<delegator>", w1)
            == a + w1 + b + "<delegate>" + c + "<votes>" + d
    ensures ReplaceFirst(a + w1 + b + "<delegate>" + c + "<votes>" + d, "<delegate>", w2)
            == a + w1 + b + w2 + c + "<votes>" + d
    ensures ReplaceFirst(a + w1 + b + w2 + c + "<votes>" + d, "<votes>", w3) == a + w1 + b + w2 + c + w3 + d
  {
    var bad := {'d', 'v'};
    ReplaceSecond(a, "<delegator>", b, "<delegate>", c, "<votes>", d, w1, bad);
    OpenersThree(a, w1, b, bad);
    ReplaceFourth(a, w1, b, "<delegate>", c, "<votes>", d, w2, bad);
    OpenersWeaken(a + w1 + b, bad, {'v'});
    OpenersWeaken(w2, bad, {'v'});
    OpenersThree(a + w1 + b, w2, c, {'v'});
    ReplaceSixth(a, w1, b, w2, c, "<votes>", d, w3, {'v'});
  }

  /**
   * A delegation text holding each placeholder once, in order, between pieces
   * of text (HTML included) shows the delegator's and the delegate's wrapped
   * names and the wrapped `000` in their places. In the first two pieces no
   * `<` may be followed by `d` or `v`, in the third no `<` by `v`; the last
   * piece is unrestricted.
   */
  lemma DelegationText(a: string, b: string, c: string, d: string, delegator: Profile, delegate: Profile)
    requires OpenersBefore(a, {'d', 'v'}) && OpenersBefore(b, {'d', 'v'}) && OpenersBefore(c, {'v'})
    requires ShowableName(delegator) && ShowableName(delegate)
    ensures DynamicTextCheck(a + "<delegator>" + b + "<delegate>" + c + "<votes>" + d, "DELEGATION",
                             Some(delegator), Some(delegate))
            == Success(a + Wrap(ProfileName(delegator)) + b + Wrap(ProfileName(delegate)) + c + Wrap("000") + d)
  {
    var w1 := Wrap(ProfileName(delegator));
    var w2 := Wrap(ProfileName(delegate));
    var w3 := Wrap("000");
    WrapOpeners(ProfileName(delegator), {'d', 'v'});
    WrapOpeners(ProfileName(delegate), {'d', 'v'});
    NoOpeners("000", {'d', 'v'});
    WrapOpeners("000", {'d', 'v'});
    PlaceholdersInOrder(a, b, c, d, w1, w2, w3);
    DelegationSteps(a + "<delegator>" + b + "<delegate>" + c + "<votes>" + d, delegator, delegate,
                    a + w1 + b + "<delegate>" + c + "<votes>" + d, a + w1 + b + w2 + c + "<votes>" + d,
                    a + w1 + b + w2 + c + w3 + d);
  }

  /** Replacing the placeholders in a text naming the vote count first, then the delegator, then the delegate. */
  lemma VotesPlaceholderFirst(a: string, b: string, c: string, d: string, w1: string, w2: string, w3: string)
    requires OpenersBefore(a, {'d', 'v'}) && OpenersBefore(b, {'d'}) && OpenersBefore(c, {'d'})
    requires OpenersBefore(w1, {'d'}) && '$' !in w1 && '$' !in w2 && '$' !in w3
    ensures ReplaceFirst(a + "<votes>" + b + "<delegator>" + c + "<delegate>" + d, "<delegator>", w1)
            == a + "<votes>" + b + w1 + c + "<delegate>" + d
    ensures ReplaceFirst(a + "<votes>" + b + w1 + c + "<delegate>" + d, "<delegate>", w2)
            == a + "<votes>" + b + w1 + c + w2 + d
    ensures ReplaceFirst(a + "<votes>" + b + w1 + c + w2 + d, "<votes>", w3) == a + w3 + b + w1 + c + w2 + d
  {
    var bad := {'d'};
    assert OpenersBefore("<votes>", bad);
    OpenersWeaken(a, {'d', 'v'}, bad);
    OpenersThree(a, "<votes>", b, bad);
    ReplaceFourth(a, "<votes>", b, "<delegator>", c, "<delegate>", d, w1, bad);
    OpenersThree(a + "<votes>" + b, w1, c, bad);
    ReplaceSixth(a, "<votes>", b, w1, c, "<delegate>", d, w2, bad);
    ReplaceSecond(a, "<votes>", b, w1, c, w2, d, w3, {'d', 'v'});
  }

  /**
   * The same for a text naming the vote count first, then the delegator, then
   * the delegate, as in "I delegate <votes> votes from <delegator> to <delegate>".
   * Here only the first piece must avoid `<v`; the two middle pieces need only
   * avoid `<d`.
   */
  lemma VotesFirstText(a: string, b: string, c: string, d: string, delegator: Profile, delegate: Profile)
    requires OpenersBefore(a, {'d', 'v'}) && OpenersBefore(b, {'d'}) && OpenersBefore(c, {'d'})
    requires ShowableName(delegator) && ShowableName(delegate)
    ensures DynamicTextCheck(a + "<votes>" + b + "<delegator>" + c + "<delegate>" + d, "DELEGATION",
                             Some(delegator), Some(delegate))
            == Success(a + Wrap("000") + b + Wrap(ProfileName(delegator)) + c + Wrap(ProfileName(delegate)) + d)
  {
    var w1 := Wrap(ProfileName(delegator));
    var w2 := Wrap(ProfileName(delegate));
    var w3 := Wrap("000");
    WrapOpeners(ProfileName(delegator), {'d', 'v'});
    WrapOpeners(ProfileName(delegate), {'d', 'v'});
    NoOpeners("000", {'d', 'v'});
    WrapOpeners("000", {'d', 'v'});
    OpenersWeaken(w1, {'d', 'v'}, {'d'});
    VotesPlaceholderFirst(a, b, c, d, w1, w2, w3);
    DelegationSteps(a + "<votes>" + b + "<delegator>" + c + "<delegate>" + d, delegator, delegate,
                    a + "<votes>" + b + w1 + c + "<delegate>" + d, a + "<votes>" + b + w1 + c + w2 + d,
                    a + w3 + b + w1 + c + w2 + d);
  }

  /**
   * A delegation text naming only the delegator, between pieces of text in
   * which no `<` is followed by `d` or `v`, shows the delegator's wrapped name
   * in its place and nothing else changes.
   */
  lemma DelegatorOnlyText(a: string, b: string, delegator: Profile, delegate: Profile)
    requires OpenersBefore(a, {'d', 'v'}) && OpenersBefore(b, {'d', 'v'})
    requires ShowableName(delegator)
    ensures DynamicTextCheck(a + "<delegator>" + b, "DELEGATION", Some(delegator), Some(delegate))
            == Success(a + Wrap(ProfileName(delegator)) + b)
  {
    var bad := {'d', 'v'};
    var w := Wrap(ProfileName(delegator));
    WrapOpeners(ProfileName(delegator), bad);
    ReplaceAfterPrefix(a, "<delegator>", b, w, bad);
    OpenersThree(a, w, b, bad);
    NoLaterTokens(a + w + b);
  }

  lemma EmptyPrefix(x: string)
    ensures [] + x == x
  {
  }

  /** The delegation text `"<delegator> voted"` shows the delegator's wrapped name. */
  lemma DelegatorExample(delegator: Profile, delegate: Profile)
    requires '$' !in ProfileName(delegator) && '<' !in ProfileName(delegator)
    ensures DynamicTextCheck("<delegator> voted", "DELEGATION", Some(delegator), Some(delegate))
            == Success(Wrap(ProfileName(delegator)) + " voted")
  {
    var w := Wrap(ProfileName(delegator));
    assert "<delegator> voted" == "<delegator>" + " voted";
    EmptyPrefix("<delegator>");
    EmptyPrefix(w);
    NoOpeners(ProfileName(delegator), {'d', 'v'});
    NoOpeners([], {'d', 'v'});
    NoOpeners(" voted", {'d', 'v'});
    DelegatorOnlyText([], " voted", delegator, delegate);
  }

  /** The HTML text `"<p><delegator> voted</p>"` shows the delegator's wrapped name inside the paragraph. */
  lemma ParagraphExample(delegator: Profile, delegate: Profile)
    requires ShowableName(delegator)
    ensures DynamicTextCheck("<p><delegator> voted</p>", "DELEGATION", Some(delegator), Some(delegate))
            == Success("<p>" + Wrap(ProfileName(delegator)) + " voted</p>")
  {
    assert "<p><delegator> voted</p>" == "<p>" + "<delegator>" + " voted</p>";
    assert OpenersBefore("<p>", {'d', 'v'});
    assert OpenersBefore(" voted</p>", {'d', 'v'});
    DelegatorOnlyText("<p>", " voted</p>", delegator, delegate);
  }

  /**
   * The agreement editor's placeholder handling. `missingDescription` is the
   * session flag, absent until first set; `html` is what the editor shows.
   */
  class Editor {
    var missingDescription: Option<bool>
    var html: string
    /** The localised 'placeholder-editor' text. */
    const placeholder: string

    /** The editor shows the placeholder whenever the flag is set. */
    ghost predicate ShowsPlaceholder()
      reads this
    {
      missingDescription == Some(true) ==> html == placeholder
    }

    constructor (placeholder: string, html: string)
      ensures this.placeholder == placeholder && this.html == html && missingDescription == None
      ensures ShowsPlaceholder()
    {
      this.placeholder := placeholder;
      this.html := html;
      missingDescription := None;
    }

    /** Focus clears a shown placeholder and the flag; otherwise nothing changes. */
    method Focus()
      modifies this
      ensures ShowsPlaceholder()
      ensures missingDescription != Some(true)
      ensures old(missingDescription) == Some(true) ==> missingDescription == Some(false) && html == ""
      ensures old(missingDescription) != Some(true) ==> unchanged(this)
    {
      if missingDescription == Some(true) {
        html := "";
        missingDescription := Some(false);
      }
    }

    /**
     * Blur shows the placeholder and sets the flag when the text, stripped of
     * markup by `stripHtml`, is at most one character long; otherwise nothing changes.
     */
    method Blur(stripHtml: string -> string)
      modifies this
      ensures old(ShowsPlaceholder()) ==> ShowsPlaceholder()
      ensures |stripHtml(old(html))| <= 1 ==> missingDescription == Some(true) && html == placeholder
      ensures |stripHtml(old(html))| > 1 ==> unchanged(this)
    {
      var content := stripHtml(html);
      if |content| <= 1 {
        missingDescription := Some(true);
        html := placeholder;
      }
    }

    /**
     * The contract changed in the store: when the note element is rendered and
     * the contract is found, show its description, or the placeholder if the
     * description is at most one character long.
     */
    method Reload(noteRendered: bool, stored: Option<string>)
      modifies this
      ensures old(ShowsPlaceholder()) ==> ShowsPlaceholder()
      ensures noteRendered && stored.Some? && |stored.value| <= 1 ==>
                missingDescription == Some(true) && html == placeholder
      ensures noteRendered && stored.Some? && |stored.value| > 1 ==>
                missingDescription == Some(false) && html == stored.value
      ensures !(noteRendered && stored.Some?) ==> unchanged(this)
    {
      if noteRendered && stored.Some? {
        if |stored.value| <= 1 {
          html := placeholder;
          missingDescription := Some(true);
        } else {
          html := stored.value;
          missingDescription := Some(false);
        }
      }
    }

    /**
     * What the delayed save sends: the editor's markup when the flag is
     * false, and the empty string when it is set or was never set.
     */
    method SavePayload() returns (payload: string)
      ensures missingDescription == Some(false) ==> payload == html
      ensures missingDescription != Some(false) ==> payload == ""
    {
      if missingDescription == Some(false) {
        payload := html;
      } else {
        payload := "";
      }
    }
  }
}
