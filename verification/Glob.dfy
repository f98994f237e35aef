// The file-name matcher behind the index partition placement rules.
//
// A pattern and a name are compared grapheme cluster by grapheme cluster.  A cluster is a
// non-empty run of code units; `*` and `?` are wildcards only when they stand alone in
// their cluster.
module Glob {

  type Cluster = c: string | |c| > 0 witness "a"
  type Text = seq<Cluster>

  const STAR: Cluster := "*"
  const QUESTION: Cluster := "?"

  // ---------------------------------------------------------------- specification

  predicate Accepts(c: Cluster, x: Cluster)
  {
    c == QUESTION || c == x
  }

  // The recursive glob relation, from pattern cluster `i` and name cluster `j` on: a star
  // stands for any run of clusters, a question mark for any one cluster.
  predicate Matches(pat: Text, name: Text, i: nat, j: nat)
    requires i <= |pat| && j <= |name|
    decreases |pat| - i + |name| - j
  {
    if i == |pat| then j == |name|
    else if pat[i] == STAR then
      Matches(pat, name, i + 1, j) || (j < |name| && Matches(pat, name, i, j + 1))
    else
      j < |name| && Accepts(pat[i], name[j]) && Matches(pat, name, i + 1, j + 1)
  }

  // What a pending star in front of cluster `i` still accepts: a match from any later
  // cluster of the name.
  predicate MatchesLater(pat: Text, name: Text, i: nat, j: nat)
    requires i <= |pat| && j <= |name|
    decreases |name| - j
  {
    Matches(pat, name, i, j) || (j < |name| && MatchesLater(pat, name, i, j + 1))
  }

  // No star among pattern clusters [i, k).
  predicate Plain(pat: Text, i: nat, k: nat)
    requires i <= k <= |pat|
  {
    forall c :: i <= c < k ==> pat[c] != STAR
  }

  // ---------------------------------------------------------------- lemmas

  lemma {:induction false} StarIsLater(pat: Text, name: Text, i: nat, j: nat)
    requires i < |pat| && pat[i] == STAR && j <= |name|
    ensures Matches(pat, name, i, j) <==> MatchesLater(pat, name, i + 1, j)
    decreases |name| - j
  {
    if j < |name| {
      StarIsLater(pat, name, i, j + 1);
    }
  }

  // A second star adds nothing.
  lemma {:induction false} ExtraStar(pat: Text, name: Text, i: nat, j: nat)
    requires i < |pat| && pat[i] == STAR && j <= |name|
    ensures MatchesLater(pat, name, i, j) <==> MatchesLater(pat, name, i + 1, j)
    decreases |name| - j
  {
    StarIsLater(pat, name, i, j);
    if j < |name| {
      ExtraStar(pat, name, i, j + 1);
    }
  }

  // A pending star that succeeds from one place succeeds from every earlier one.
  lemma {:induction false} LaterIsMonotone(pat: Text, name: Text, i: nat, j: nat, k: nat)
    requires i <= |pat| && j <= k <= |name| && MatchesLater(pat, name, i, k)
    ensures MatchesLater(pat, name, i, j)
    decreases k - j
  {
    if j < k {
      LaterIsMonotone(pat, name, i, j + 1, k);
    }
  }

  lemma {:induction false} TrailingStar(pat: Text, name: Text, j: nat)
    requires j <= |name|
    ensures MatchesLater(pat, name, |pat|, j)
    decreases |name| - j
  {
    if j < |name| {
      TrailingStar(pat, name, j + 1);
    }
  }

  // A match through `n` plain clusters consumes exactly `n` clusters of the name.
  lemma {:induction false} PlainRun(pat: Text, name: Text, i: nat, j: nat, n: nat)
    requires i + n <= |pat| && j <= |name| && Plain(pat, i, i + n) && Matches(pat, name, i, j)
    ensures j + n <= |name| && Matches(pat, name, i + n, j + n)
    decreases n
  {
    if n > 0 {
      PlainRun(pat, name, i + 1, j + 1, n - 1);
    }
  }

  // Retrying the last asterisk suffices.  The matcher went through the plain clusters
  // [a, b) of the pattern, standing at cluster `s` of the name, and then met the asterisk
  // pat[b].  If an earlier asterisk, in front of pat[a], could still succeed from some
  // place `k` that puts the end of that run at `s` or later, then so can the asterisk just
  // met, from where the matcher stands.
  lemma {:induction false} LastStarSuffices(pat: Text, name: Text, a: nat, b: nat, s: nat, k: nat)
    requires a <= b < |pat| && Plain(pat, a, b) && pat[b] == STAR
    requires k <= |name| && s <= |name| && s <= k + (b - a)
    requires MatchesLater(pat, name, a, k)
    ensures MatchesLater(pat, name, b + 1, s)
    decreases |name| - k
  {
    if Matches(pat, name, a, k) {
      PlainRun(pat, name, a, k, b - a);
      StarIsLater(pat, name, b, k + (b - a));
      LaterIsMonotone(pat, name, b + 1, s, k + (b - a));
    } else {
      LastStarSuffices(pat, name, a, b, s, k + 1);
    }
  }

  // ---------------------------------------------------------------- backtrack stack

  // A saved position: pattern cluster `cr`, matched against name cluster `fi` right after
  // an asterisk.
  datatype Mark = Mark(cr: nat, fi: nat)

  // Pushing hangs the new element off the base, whatever hung there before, so the stack
  // never holds more than the base and the newest element.
  datatype Stack = Empty | Base(base: Mark) | Two(base: Mark, newest: Mark)
  {
    function Push(m: Mark): Stack
    {
      if Empty? then Base(m) else Two(base, m)
    }

    function Top(): Mark
      requires !Empty?
    {
      if Base? then base else newest
    }

    function Pop(): Stack
      requires !Empty?
    {
      if Base? then Empty else Base(base)
    }
  }

  // ---------------------------------------------------------------- the matcher

  // Everything still reachable from a mark was reachable from the start.
  ghost predicate MarkSound(pat: Text, name: Text, m: Mark)
  {
    && m.cr < |pat| && m.fi < |name| && pat[m.cr] != STAR
    && (MatchesLater(pat, name, m.cr, m.fi + 1) ==> Matches(pat, name, 0, 0))
  }

  ghost predicate StackSound(pat: Text, name: Text, stack: Stack)
  {
    stack.Empty? || (MarkSound(pat, name, stack.base) && MarkSound(pat, name, stack.Top()))
  }

  // An asterisk is pending in front of `cr`: it alone decides the match.
  ghost predicate Pending(pat: Text, name: Text, cr: nat, fi: nat, stack: Stack)
  {
    && cr < |pat| && fi <= |name| && pat[cr] != STAR && StackSound(pat, name, stack)
    && (Matches(pat, name, 0, 0) <==> MatchesLater(pat, name, cr, fi))
  }

  // No asterisk is pending: the position and the newest mark decide together.
  ghost predicate Walking(pat: Text, name: Text, cr: nat, fi: nat, stack: Stack)
  {
    && cr <= |pat| && fi <= |name| && StackSound(pat, name, stack)
    && (Matches(pat, name, cr, fi) ==> Matches(pat, name, 0, 0))
    && if stack.Empty? then
         Matches(pat, name, 0, 0) ==> Matches(pat, name, cr, fi)
       else
         var t := stack.Top();
         && t.cr < cr && t.fi < fi && cr - t.cr == fi - t.fi && Plain(pat, t.cr, cr)
         && (Matches(pat, name, 0, 0) ==> Matches(pat, name, cr, fi) || MatchesLater(pat, name, t.cr, t.fi + 1))
  }

  ghost predicate Configuration(pat: Text, name: Text, cr: nat, fi: nat, star: bool, stack: Stack)
  {
    if star then Pending(pat, name, cr, fi, stack) else Walking(pat, name, cr, fi, stack)
  }

  lemma ConsumeStar(pat: Text, name: Text, cr: nat, fi: nat, stack: Stack)
    requires Walking(pat, name, cr, fi, stack) && cr < |pat| && pat[cr] == STAR
    ensures Matches(pat, name, 0, 0) <==> MatchesLater(pat, name, cr + 1, fi)
  {
    StarIsLater(pat, name, cr, fi);
    if !stack.Empty? && Matches(pat, name, 0, 0) && !Matches(pat, name, cr, fi) {
      LastStarSuffices(pat, name, stack.Top().cr, cr, fi, stack.Top().fi + 1);
    }
  }

  lemma PushStep(pat: Text, name: Text, cr: nat, fi: nat, stack: Stack)
    requires Pending(pat, name, cr, fi, stack) && fi < |name| && Accepts(pat[cr], name[fi])
    ensures Walking(pat, name, cr + 1, fi + 1, stack.Push(Mark(cr, fi)))
  {
    assert MatchesLater(pat, name, cr, fi) <==>
           Matches(pat, name, cr + 1, fi + 1) || MatchesLater(pat, name, cr, fi + 1);
  }

  lemma SubsumeStep(pat: Text, name: Text, cr: nat, fi: nat, stack: Stack)
    requires Pending(pat, name, cr, fi, stack) && fi < |name| && !Accepts(pat[cr], name[fi])
    ensures Pending(pat, name, cr, fi + 1, stack)
  {
  }

  lemma AdvanceStep(pat: Text, name: Text, cr: nat, fi: nat, stack: Stack)
    requires Walking(pat, name, cr, fi, stack)
    requires cr < |pat| && pat[cr] != STAR && fi < |name| && Accepts(pat[cr], name[fi])
    ensures Walking(pat, name, cr + 1, fi + 1, stack)
  {
  }

  // The position is stuck: a cluster does not match, or one side ended first.
  ghost predicate Stuck(pat: Text, name: Text, cr: nat, fi: nat, star: bool)
  {
    && cr <= |pat| && fi <= |name|
    && (cr < |pat| ==> pat[cr] != STAR)
    && if cr == |pat| then fi < |name| && !star
       else fi == |name| || (!star && !Accepts(pat[cr], name[fi]))
  }

  lemma PopStep(pat: Text, name: Text, cr: nat, fi: nat, star: bool, stack: Stack)
    requires Configuration(pat, name, cr, fi, star, stack) && Stuck(pat, name, cr, fi, star)
    ensures stack.Empty? ==> !Matches(pat, name, 0, 0)
    ensures !stack.Empty? ==> Pending(pat, name, stack.Top().cr, stack.Top().fi + 1, stack.Pop())
  {
    assert !Matches(pat, name, cr, fi);
    assert star ==> !MatchesLater(pat, name, cr, fi);
  }

  // Consume sequential asterisks, leaving one pending.
  method ConsumeStars(pat: Text, name: Text, cr: nat, fi: nat, star: bool, ghost stack: Stack)
      returns (cr': nat, star': bool)
    requires Configuration(pat, name, cr, fi, star, stack) && cr < |pat|
    ensures cr <= cr' <= |pat|
    ensures cr' == |pat| ==> Matches(pat, name, 0, 0)
    ensures cr' < |pat| ==> pat[cr'] != STAR && Configuration(pat, name, cr', fi, star', stack)
  {
    cr', star' := cr, star;
    while cr' < |pat| && pat[cr'] == STAR
      invariant cr <= cr' <= |pat|
      invariant cr' == cr ==> star' == star
      invariant cr' > cr ==> star' && pat[cr] == STAR
      invariant cr' > cr ==> (Matches(pat, name, 0, 0) <==> MatchesLater(pat, name, cr', fi))
    {
      if cr' == cr {
        ConsumeStar(pat, name, cr, fi, stack);
      } else {
        ExtraStar(pat, name, cr', fi);
      }
      cr', star' := cr' + 1, true;
    }
    if cr' == |pat| {
      TrailingStar(pat, name, fi);
    }
  }

  // The inner loop of the matcher: move forward until the pattern ends in an asterisk or
  // the position is stuck or complete.  Marks are only pushed at or after the start.
  method Forward(pat: Text, name: Text, cr0: nat, fi0: nat, star0: bool, stack0: Stack)
    returns (accepted: bool, cr: nat, fi: nat, star: bool, stack: Stack)
    requires Configuration(pat, name, cr0, fi0, star0, stack0)
    ensures accepted ==> Matches(pat, name, 0, 0)
    ensures !accepted ==> Configuration(pat, name, cr, fi, star, stack)
    ensures !accepted ==> Stuck(pat, name, cr, fi, star) || (cr == |pat| && fi == |name| && !star)
    ensures !stack0.Empty? ==> !stack.Empty? && stack.base == stack0.base
    ensures stack0.Empty? && !stack.Empty? ==> fi0 <= stack.base.fi
    ensures !stack0.Two? && stack.Two? ==> cr0 <= stack.newest.cr && fi0 <= stack.newest.fi
  {
    accepted, cr, fi, star, stack := false, cr0, fi0, star0, stack0;
    while cr < |pat|
      invariant Configuration(pat, name, cr, fi, star, stack) && cr0 <= cr && fi0 <= fi <= |name|
      invariant !stack0.Empty? ==> !stack.Empty? && stack.base == stack0.base
      invariant stack0.Empty? && !stack.Empty? ==> fi0 <= stack.base.fi
      invariant !stack0.Two? && stack.Two? ==> cr0 <= stack.newest.cr && fi0 <= stack.newest.fi
      decreases |name| - fi, |pat| - cr
    {
      cr, star := ConsumeStars(pat, name, cr, fi, star, stack);
      if cr == |pat| {
        accepted := true;  // a trailing asterisk accepts whatever is left
        return;
      }
      if fi == |name| {
        return;
      }
      if star {
        if Accepts(pat[cr], name[fi]) {
          PushStep(pat, name, cr, fi, stack);
          stack := stack.Push(Mark(cr, fi));
          cr, fi, star := cr + 1, fi + 1, false;
        } else {
          SubsumeStep(pat, name, cr, fi, stack);
          fi := fi + 1;  // the asterisk swallows this cluster
        }
      } else if Accepts(pat[cr], name[fi]) {
        AdvanceStep(pat, name, cr, fi, stack);
        cr, fi := cr + 1, fi + 1;
      } else {
        return;
      }
    }
  }

  // The matcher proper.  `cr` and `fi` are the current clusters of pattern and name, and
  // `star` says that an asterisk is pending in front of pattern cluster `cr`.
  method MatchName(pat: Text, name: Text) returns (matched: bool)
    ensures matched <==> Matches(pat, name, 0, 0)
  {
    if pat == [] {
      return name == [];
    }
    var accepted, cr, fi, star, stack := Forward(pat, name, 0, 0, false, Empty);
    while !accepted && !(cr == |pat| && fi == |name|)
      invariant accepted ==> Matches(pat, name, 0, 0)
      invariant !accepted ==> Configuration(pat, name, cr, fi, star, stack)
      invariant !accepted ==> Stuck(pat, name, cr, fi, star) || (cr == |pat| && fi == |name| && !star)
      decreases if stack.Empty? then 0 else 1 + |name| - stack.base.fi,
                stack.Two?,
                if stack.Two? then |pat| - stack.newest.cr else 0,
                if stack.Two? then |name| - stack.newest.fi else 0
    {
      PopStep(pat, name, cr, fi, star, stack);
      if stack.Empty? {
        return false;
      }
      // Back to the newest mark, whose asterisk swallows one cluster more.
      var m := stack.Top();
      accepted, cr, fi, star, stack := Forward(pat, name, m.cr, m.fi + 1, true, stack.Pop());
      if accepted {
        return true;
      }
    }
    return true;
  }

  // The configured placement criteria; patterns may be absent altogether.
  datatype Criteria = Unset | SizeOnly(maxFileSize: nat) | Names(maxFileSize: nat, globs: seq<Text>)

  // A name is eligible for the index partition when criteria with a positive size bound are
  // set and, if they list patterns, one of those accepts it.
  method MatchCriteria(ic: Criteria, name: Text) returns (matched: bool)
    ensures matched <==>
            && !ic.Unset? && ic.maxFileSize > 0
            && (ic.Names? ==> exists i :: 0 <= i < |ic.globs| && Matches(ic.globs[i], name, 0, 0))
  {
    if ic.Unset? || ic.maxFileSize == 0 {
      return false;
    } else if ic.SizeOnly? {
      return true;
    }
    for i := 0 to |ic.globs|
      invariant forall k :: 0 <= k < i ==> !Matches(ic.globs[k], name, 0, 0)
    {
      var m := MatchName(ic.globs[i], name);
      if m {
        return true;
      }
    }
    return false;
  }
}
