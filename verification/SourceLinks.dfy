/** The worktree script's symlink check: it follows a name inside a pinned root and accepts it
    only when pathname resolution of that name never leaves the root. */
module SourceLinks {
  import opened Wrappers

  type Name = string
  type Path = seq<Name>

  /** A link target is its list of components; an absolute one starts at the top. */
  datatype Node = Dir | File | Link(absolute: bool, target: seq<Name>)

  /** A finite inode tree: every existing path from the top, with what is there. */
  type Tree = map<Path, Node>

  const LIMIT: nat := 40

  predicate Ordinary(part: Name) { part !in {"", ".", ".."} }

  /** The root is a chain of real directories, none of them the top itself. */
  ghost predicate Pinned(fs: Tree, root: Path) {
    && root != []
    && (forall part :: part in root ==> Ordinary(part))
    && forall k :: 0 <= k <= |root| ==> root[..k] in fs && fs[root[..k]] == Dir
  }

  // ------------------------------------------------------------------ pathname resolution

  /** Pathname resolution (section 4.13 of XBD, IEEE Std 1003.1-2017) between two steps: the
      directory it stands in, the components to come, the links followed, and whether it is
      still on its way down from the top to the root after an absolute link. */
  datatype Walk = Walk(at: Path, pending: seq<Name>, links: nat, entering: bool)

  function Parent(at: Path): Path { if at == [] then [] else at[..|at| - 1] }

  /** One step; `None` when resolution is over: nothing left, a file, or nothing there. */
  function Step(fs: Tree, root: Path, w: Walk): Option<Walk> {
    if w.pending == [] then None
    else
      var part, rest := w.pending[0], w.pending[1..];
      var child := w.at + [part];
      if part in {"", "."} then Some(w.(pending := rest))
      else if part == ".." then Some(Walk(Parent(w.at), rest, w.links, false))
      else if child !in fs || fs[child] == File then None
      else
        match fs[child]
        case Dir => Some(Walk(child, rest, w.links, w.entering && child != root))
        case Link(absolute, target) =>
          Some(Walk(if absolute then [] else w.at, target + rest, w.links + 1, w.entering || absolute))
  }

  /** The next step goes above the root, or restarts from the top to somewhere else. */
  predicate Leaves(fs: Tree, root: Path, w: Walk) {
    && w.pending != []
    && var child := w.at + [w.pending[0]];
       || (w.pending[0] == ".." && w.at == root)
       || (Ordinary(w.pending[0]) && child in fs && fs[child].Link? && fs[child].absolute && !(root <= fs[child].target))
  }

  /** Where resolution is after `n` steps, none of which leaves the root. */
  function Follow(fs: Tree, root: Path, w: Walk, n: nat): Option<Walk> {
    if n == 0 then Some(w)
    else
      var before := Follow(fs, root, w, n - 1);
      if before.None? || Leaves(fs, root, before.value) then None else Step(fs, root, before.value)
  }

  /** How a component moves a purely lexical depth. */
  function Delta(part: Name): int { if part == ".." then -1 else if part == "." then 0 else 1 }

  predicate StaysBelow(depth: int, tail: seq<Name>)
    decreases |tail|
  {
    tail == [] || (depth + Delta(tail[0]) >= 0 && StaysBelow(depth + Delta(tail[0]), tail[1..]))
  }

  /** Resolution is over; where it failed on a missing name, the components after that name
      would not climb above the root either. */
  predicate EndsInside(fs: Tree, root: Path, w: Walk) {
    && Step(fs, root, w).None?
    && (w.pending != [] && w.at + [w.pending[0]] !in fs ==> StaysBelow(|w.at| - |root| + 1, w.pending[1..]))
  }

  function Start(root: Path, name: seq<Name>): Walk { Walk(root, name, 0, false) }

  ghost predicate EndsAfter(fs: Tree, root: Path, name: seq<Name>, n: nat) {
    var end := Follow(fs, root, Start(root, name), n);
    end.Some? && EndsInside(fs, root, end.value) && end.value.links <= LIMIT
  }

  /** Resolution of the name ends, inside, without leaving and without too many links. */
  ghost predicate Safe(fs: Tree, root: Path, name: seq<Name>) {
    exists n: nat :: EndsAfter(fs, root, name, n)
  }

  // ------------------------------------------------------------------ following is deterministic

  lemma {:induction false} FollowPrefix(fs: Tree, root: Path, w: Walk, k: nat, n: nat)
    requires k <= n && Follow(fs, root, w, n).Some?
    ensures Follow(fs, root, w, k).Some?
    ensures k < n ==> Follow(fs, root, w, k + 1) == Step(fs, root, Follow(fs, root, w, k).value)
    ensures k < n ==> !Leaves(fs, root, Follow(fs, root, w, k).value) && Step(fs, root, Follow(fs, root, w, k).value).Some?
    ensures Follow(fs, root, w, k).value.links <= Follow(fs, root, w, n).value.links
  {
    if k < n {
      FollowPrefix(fs, root, w, k, n - 1);
    }
  }

  /** A state resolution passes through, but that is not where it may end, makes a name unsafe
      if nothing acceptable follows. */
  lemma Unsafe(fs: Tree, root: Path, name: seq<Name>, n: nat)
    requires Follow(fs, root, Start(root, name), n).Some?
    requires var w := Follow(fs, root, Start(root, name), n).value;
      || Leaves(fs, root, w)
      || (Step(fs, root, w).None? && !EndsInside(fs, root, w))
      || (Step(fs, root, w).Some? && Step(fs, root, w).value.links > LIMIT)
    ensures !Safe(fs, root, name)
  {
    var start := Start(root, name);
    var w := Follow(fs, root, start, n).value;
    if Safe(fs, root, name) {
      var m: nat :| EndsAfter(fs, root, name, m);
      if m < n {
        FollowPrefix(fs, root, start, m, n);
      } else if n < m {
        FollowPrefix(fs, root, start, n, m);
        FollowPrefix(fs, root, start, n + 1, m);
      }
    }
  }

  lemma {:induction false} FollowMore(fs: Tree, root: Path, w: Walk, n: nat, m: nat)
    requires Follow(fs, root, w, n).Some?
    ensures Follow(fs, root, w, n + m) == Follow(fs, root, Follow(fs, root, w, n).value, m)
    decreases m
  {
    if m > 0 { FollowMore(fs, root, w, n, m - 1); }
  }

  /** From the top, the root's own components lead to the root. */
  lemma {:induction false} Descend(fs: Tree, root: Path, tail: seq<Name>, links: nat, k: nat)
    requires Pinned(fs, root) && k <= |root|
    ensures Follow(fs, root, Walk([], root + tail, links, true), k)
         == Some(Walk(root[..k], root[k..] + tail, links, k < |root|))
  {
    if k > 0 {
      Descend(fs, root, tail, links, k - 1);
      var w := Walk(root[..k - 1], root[k - 1..] + tail, links, true);
      assert root[k - 1..] + tail == [root[k - 1]] + (root[k..] + tail);
      assert w.pending[0] == root[k - 1] && root[k - 1] in root && w.pending[1..] == root[k..] + tail;
      assert root[..k - 1] + [root[k - 1]] == root[..k];
      assert k < |root| ==> root[..k] != root by { assert |root[..k]| == k; }
      assert k == |root| ==> root[..k] == root;
    } else {
      assert root[..0] == [] && root[0..] == root;
    }
  }

  /** Following an absolute link into the root is one link step and the way down. */
  lemma Reenter(fs: Tree, root: Path, w: Walk)
    requires Pinned(fs, root) && w.pending != [] && Ordinary(w.pending[0])
    requires var child := w.at + [w.pending[0]];
      child in fs && fs[child].Link? && fs[child].absolute && root <= fs[child].target
    ensures var target := fs[w.at + [w.pending[0]]].target;
      Follow(fs, root, w, 1 + |root|) == Some(Walk(root, target[|root|..] + w.pending[1..], w.links + 1, false))
  {
    var target := fs[w.at + [w.pending[0]]].target;
    var tail := target[|root|..] + w.pending[1..];
    assert target + w.pending[1..] == root + tail;
    assert Follow(fs, root, w, 0) == Some(w);
    assert Follow(fs, root, w, 1) == Some(Walk([], root + tail, w.links + 1, true));
    FollowMore(fs, root, w, 1, |root|);
    Descend(fs, root, tail, w.links + 1, |root|);
    assert root[|root|..] + tail == tail && root[..|root|] == root;
  }

  // ------------------------------------------------------------------ the check

  /** The stack of open directories: a chain of real directories from the pinned root. */
  ghost predicate IsChain(fs: Tree, root: Path, stack: seq<Path>) {
    && stack != [] && stack[0] == root
    && (forall i :: 0 <= i < |stack| ==> stack[i] in fs && fs[stack[i]] == Dir && |stack[i]| == |root| + i)
    && (forall i :: 0 < i < |stack| ==> stack[i - 1] == Parent(stack[i]))
  }

  /** The lexical look at what follows a missing name. */
  method DanglingTailStays(depth: nat, tail: seq<Name>) returns (ok: bool)
    ensures ok <==> StaysBelow(depth, tail)
  {
    var d: int, i := depth, 0;
    while i < |tail|
      invariant 0 <= i <= |tail| && d >= 0
      invariant StaysBelow(depth, tail) <==> StaysBelow(d, tail[i..])
    {
      d := d + Delta(tail[i]);
      if d < 0 { return false; }
      i := i + 1;
    }
    ok := true;
  }

  ghost predicate At(fs: Tree, root: Path, name: seq<Name>, n: nat, w: Walk) {
    Follow(fs, root, Start(root, name), n) == Some(w)
  }

  lemma Advance(fs: Tree, root: Path, name: seq<Name>, n: nat, w: Walk)
    requires At(fs, root, name, n, w) && !Leaves(fs, root, w) && Step(fs, root, w).Some?
    ensures At(fs, root, name, n + 1, Step(fs, root, w).value)
  {
  }

  lemma AdvanceInto(fs: Tree, root: Path, name: seq<Name>, n: nat, w: Walk)
    requires Pinned(fs, root) && At(fs, root, name, n, w) && w.pending != [] && Ordinary(w.pending[0])
    requires var child := w.at + [w.pending[0]];
      child in fs && fs[child].Link? && fs[child].absolute && root <= fs[child].target
    ensures var target := fs[w.at + [w.pending[0]]].target;
      At(fs, root, name, n + 1 + |root|, Walk(root, target[|root|..] + w.pending[1..], w.links + 1, false))
  {
    Reenter(fs, root, w);
    FollowMore(fs, root, Start(root, name), n, 1 + |root|);
  }

  lemma Pop(fs: Tree, root: Path, stack: seq<Path>)
    requires IsChain(fs, root, stack) && |stack| > 1
    ensures IsChain(fs, root, stack[..|stack| - 1]) && IsChain(fs, root, stack[..1])
    ensures stack[|stack| - 2] == Parent(stack[|stack| - 1]) && stack[|stack| - 1] != root
  {
  }

  lemma Push(fs: Tree, root: Path, stack: seq<Path>, part: Name)
    requires IsChain(fs, root, stack)
    requires var child := stack[|stack| - 1] + [part]; child in fs && fs[child] == Dir
    ensures IsChain(fs, root, stack + [stack[|stack| - 1] + [part]]) && stack[|stack| - 1] + [part] != root
  {
  }

  /** Accept a name exactly when resolution of it is safe. */
  method VerifySourceLink(fs: Tree, root: Path, name: seq<Name>) returns (accepted: bool)
    requires Pinned(fs, root)
    ensures accepted <==> Safe(fs, root, name)
  {
    var pending, stack, followed := name, [root], 0;
    ghost var n: nat := 0;
    assert root[..|root|] == root;
    while pending != []
      invariant IsChain(fs, root, stack) && 0 <= followed <= LIMIT
      invariant At(fs, root, name, n, Walk(stack[|stack| - 1], pending, followed, false))
      decreases LIMIT + 1 - followed, |pending|
    {
      var here := stack[|stack| - 1];
      ghost var w := Walk(here, pending, followed, false);
      var part := pending[0];
      pending := pending[1..];
      if part in {"", "."} {
        Advance(fs, root, name, n, w);
        n := n + 1;
        continue;
      }
      if part == ".." {
        if |stack| == 1 {
          Unsafe(fs, root, name, n);
          return false;
        }
        Pop(fs, root, stack);
        Advance(fs, root, name, n, w);
        n, stack := n + 1, stack[..|stack| - 1];
        continue;
      }
      if here + [part] !in fs {
        var stays := DanglingTailStays(|stack|, pending);
        if stays { assert EndsAfter(fs, root, name, n); } else { Unsafe(fs, root, name, n); }
        return stays;
      }
      match fs[here + [part]] {
        case Dir =>
          Push(fs, root, stack, part);
          Advance(fs, root, name, n, w);
          n, stack := n + 1, stack + [here + [part]];
        case Link(absolute, target) =>
          followed := followed + 1;
          if followed > LIMIT || (absolute && !(root <= target)) {
            Unsafe(fs, root, name, n);
            return false;
          }
          if absolute {
            AdvanceInto(fs, root, name, n, w);
            if |stack| > 1 { Pop(fs, root, stack); }
            n, stack, pending := n + 1 + |root|, stack[..1], target[|root|..] + pending;
          } else {
            Advance(fs, root, name, n, w);
            n, pending := n + 1, target + pending;
          }
        case File =>
          assert EndsAfter(fs, root, name, n);
          return true;
      }
    }
    assert EndsAfter(fs, root, name, n);
    accepted := true;
  }

  // ------------------------------------------------------------------ what safety means

  /** At or below the root, or on the way down to it from the top. */
  ghost predicate Contained(root: Path, w: Walk) {
    root <= w.at || (w.entering && w.at < root && root <= w.at + w.pending)
  }

  lemma {:induction false} FollowIsContained(fs: Tree, root: Path, name: seq<Name>, n: nat)
    requires Pinned(fs, root) && Follow(fs, root, Start(root, name), n).Some?
    ensures Contained(root, Follow(fs, root, Start(root, name), n).value)
  {
    if n > 0 {
      var start := Start(root, name);
      FollowPrefix(fs, root, start, n - 1, n);
      FollowIsContained(fs, root, name, n - 1);
      StepIsContained(fs, root, Follow(fs, root, start, n - 1).value);
    }
  }

  lemma StepIsContained(fs: Tree, root: Path, w: Walk)
    requires Pinned(fs, root) && Contained(root, w) && !Leaves(fs, root, w) && Step(fs, root, w).Some?
    ensures Contained(root, Step(fs, root, w).value)
  {
    var part, next := w.pending[0], Step(fs, root, w).value;
    if root <= w.at {
    } else {
      assert part == root[|w.at|] by { assert (w.at + w.pending)[|w.at|] == part; }
      assert root[|w.at|] in root;
      var child := w.at + [part];
      assert child == root[..|w.at| + 1];
      assert next.at + next.pending == w.at + w.pending;
    }
  }

  ghost predicate InsideAt(fs: Tree, root: Path, name: seq<Name>, k: nat) {
    var w := Follow(fs, root, Start(root, name), k);
    w.Some? && Contained(root, w.value)
  }

  /** The walk really takes resolution's own step here. */
  ghost predicate StepsAt(fs: Tree, root: Path, name: seq<Name>, k: nat) {
    var w := Follow(fs, root, Start(root, name), k);
    w.Some? && Step(fs, root, w.value).Some? && Follow(fs, root, Start(root, name), k + 1) == Step(fs, root, w.value)
  }

  /** Every accepted name stays inside: no state resolution passes through, at any step, is
      outside the root, and it ends after finitely many. */
  lemma AcceptedNamesNeverLeave(fs: Tree, root: Path, name: seq<Name>) returns (n: nat)
    requires Pinned(fs, root) && Safe(fs, root, name)
    ensures forall k: nat :: k <= n ==> InsideAt(fs, root, name, k)
    ensures forall k: nat :: k < n ==> StepsAt(fs, root, name, k)
    ensures InsideAt(fs, root, name, n) && Step(fs, root, Follow(fs, root, Start(root, name), n).value).None?
  {
    n :| EndsAfter(fs, root, name, n);
    forall k: nat | k <= n ensures InsideAt(fs, root, name, k) {
      FollowPrefix(fs, root, Start(root, name), k, n);
      FollowIsContained(fs, root, name, k);
    }
    forall k: nat | k < n ensures StepsAt(fs, root, name, k) {
      FollowPrefix(fs, root, Start(root, name), k, n);
    }
  }
}
