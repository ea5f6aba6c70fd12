/** Jump lists threaded through the instructions: the offset of an open jump leads to the
    next jump of its list, forward or backward, and NO_JUMP ends the list. */
module LuaThreads {
  import opened LuaSource
  import opened LuaMachine
  import opened LuaCodegen
  import opened LuaInvariant

  /** The concrete code agrees with the abstract one, except for the links in open jumps. */
  ghost predicate Stands(c: Code, a: Code) {
    |c| == |a| && forall i :: 0 <= i < |a| ==> StandsAt(c, a, i)
  }

  ghost predicate StandsAt(c: Code, a: Code, i: nat)
    requires i < |c| == |a|
  {
    if a[i] == OPEN then c[i].JMP? else c[i] == a[i]
  }

  /** `getjump`: the jump after `j` in its list. */
  function NextJump(c: Code, j: nat): int
    requires j < |c| && c[j].JMP?
  {
    if c[j].sbx == NO_JUMP then NO_JUMP else j + 1 + c[j].sbx
  }

  /** The list that starts at `head` is `l`: finite, and ending with NO_JUMP. */
  ghost predicate Threads(c: Code, head: int, l: seq<nat>)
    decreases |l|
  {
    if l == [] then head == NO_JUMP
    else head == l[0] && l[0] < |c| && c[l[0]].JMP? && Threads(c, NextJump(c, l[0]), l[1..])
  }

  lemma HeadOf(c: Code, head: int, l: seq<nat>)
    requires Threads(c, head, l) && l != []
    ensures head == l[0]
  {
  }

  lemma OneThread(c: Code, at: nat)
    requires at < |c| && c[at] == OPEN
    ensures Threads(c, at, [at])
  {
  }

  /** A list is determined by its head, so a jump is in one position of it only. */
  lemma {:induction false} ThreadsUnique(c: Code, head: int, l: seq<nat>, l': seq<nat>)
    requires Threads(c, head, l) && Threads(c, head, l')
    ensures l == l'
    decreases |l|
  {
    if l != [] && l' != [] {
      ThreadsUnique(c, NextJump(c, l[0]), l[1..], l'[1..]);
      assert l == [l[0]] + l[1..] && l' == [l'[0]] + l'[1..];
    }
  }

  lemma ApartFromItself(l: seq<nat>)
    ensures Apart(l, l) ==> l == []
  {
    if l != [] { assert l[0] in l; }
  }

  /** Open jumps outside `lists` keep their links. */
  ghost predicate Unmoved(a: Code, c: Code, c': Code, lists: seq<nat>) {
    forall j :: 0 <= j < |a| && a[j] == OPEN && j !in lists ==> UnmovedAt(c, c', j)
  }

  ghost predicate UnmovedAt(c: Code, c': Code, j: nat) {
    j < |c| && j < |c'| && c'[j] == c[j]
  }

  lemma {:induction false} ThreadsKept(a: Code, c: Code, c': Code, lists: seq<nat>, head: int, l: seq<nat>)
    requires Threads(c, head, l) && Opens(a, l) && Unmoved(a, c, c', lists) && Apart(l, lists)
    ensures Threads(c', head, l)
    decreases |l|
  {
    if l != [] {
      assert UnmovedAt(c, c', l[0]);
      ThreadsKept(a, c, c', lists, NextJump(c, l[0]), l[1..]);
    }
  }

  lemma UnmovedOn(a: Code, a': Code, c: Code, c': Code, c'': Code, lists: seq<nat>, lists': seq<nat>)
    requires Unmoved(a, c, c', lists) && Unmoved(a', c', c'', lists')
    requires Untouched(a, a', lists) && From(lists', lists, |a|)
    ensures Unmoved(a, c, c'', lists)
  {
    forall j | 0 <= j < |a| && a[j] == OPEN && j !in lists
      ensures UnmovedAt(c, c'', j)
    {
      assert UnmovedAt(c, c', j);
      assert OpenAlike(a, a', j);
      assert UnmovedAt(c', c'', j);
    }
  }

  lemma UnmovedAfter(g: Gen, l: seq<nat>, g': Gen, l': seq<nat>, c: Code, c': Code, c'': Code)
    requires Keeps(g, l, g', l') && Unmoved(g.code, c, c', l) && Unmoved(g'.code, c', c'', l')
    ensures Unmoved(g.code, c, c'', l)
  {
    hide Unmoved;
    UnmovedOn(g.code, g'.code, c, c', c'', l, l');
  }

  lemma UnmovedSame(a: Code, c: Code, lists: seq<nat>)
    requires Stands(c, a)
    ensures Unmoved(a, c, c, lists)
  {
  }

  lemma NoThread(c: Code)
    ensures Threads(c, NO_JUMP, [])
  {
  }

  /** Dropping values redirects nothing. */
  lemma UnmovedRemoved(a: Code, l: seq<nat>, c: Code, c': Code, c'': Code)
    requires Unmoved(a, c, c', []) && Unmoved(RemoveValues(a, l), c', c'', [])
    ensures Unmoved(a, c, c'', [])
  {
    forall j | 0 <= j < |a| && a[j] == OPEN
      ensures UnmovedAt(c, c'', j)
    {
      assert UnmovedAt(c, c', j) && RemoveValues(a, l)[j] == OPEN;
      assert UnmovedAt(c', c'', j);
    }
  }

  lemma UnmovedMore(a: Code, c: Code, c': Code, lists: seq<nat>, more: seq<nat>)
    requires Unmoved(a, c, c', lists) && forall j :: j in lists ==> j in more
    ensures Unmoved(a, c, c', more)
  {
  }

  /** Appending an instruction keeps every list. */
  lemma {:induction false} ThreadsAppended(c: Code, i: Instr, head: int, l: seq<nat>)
    requires Threads(c, head, l)
    ensures Threads(c + [i], head, l)
    decreases |l|
  {
    if l != [] {
      ThreadsAppended(c, i, NextJump(c, l[0]), l[1..]);
    }
  }

  /** Linking the last jump of a list to another list concatenates them. */
  lemma {:induction false} Linked(c: Code, head: int, l: seq<nat>, head2: int, l2: seq<nat>)
    requires Threads(c, head, l) && Threads(c, head2, l2) && l != [] && l2 != []
    requires NoDup(l + l2) && (forall i :: 0 <= i < |l| ==> l[i] < |c|)
    ensures var last := l[|l| - 1]; Threads(c[last := JMP(head2 - (last + 1))], head, l + l2)
    decreases |l|
  {
    var last := l[|l| - 1];
    var c' := c[last := JMP(head2 - (last + 1))];
    if |l| == 1 {
      assert (l + l2)[1..] == l2;
      forall j | j in l2 ensures j != last
      {
        var i :| 0 <= i < |l2| && l2[i] == j;
        assert (l + l2)[1 + i] == j;
      }
      ThreadsExcept(c, c', last, head2, l2);
      assert head2 != last;
    } else {
      assert (l + l2)[1..] == l[1..] + l2;
      assert l[0] != last by { assert (l + l2)[0] != (l + l2)[|l| - 1]; }
      forall i, j | 0 <= i < j < |l[1..] + l2| ensures (l[1..] + l2)[i] != (l[1..] + l2)[j]
      {
        assert (l + l2)[i + 1] != (l + l2)[j + 1];
      }
      Linked(c, NextJump(c, l[0]), l[1..], head2, l2);
    }
  }

  lemma {:induction false} ThreadsExcept(c: Code, c': Code, j: nat, head: int, l: seq<nat>)
    requires Threads(c, head, l) && j !in l && |c| == |c'|
    requires forall i :: 0 <= i < |c| && i != j ==> c'[i] == c[i]
    ensures Threads(c', head, l)
    decreases |l|
  {
    if l != [] {
      ThreadsExcept(c, c', j, NextJump(c, l[0]), l[1..]);
    }
  }

  /** A list whose jumps lie in a prefix of the code is a list of the prefix. */
  lemma {:induction false} ThreadsPrefix(c: Code, n: nat, head: int, l: seq<nat>)
    requires Threads(c, head, l) && n <= |c| && forall i :: 0 <= i < |l| ==> l[i] < n
    ensures Threads(c[..n], head, l)
    decreases |l|
  {
    if l != [] {
      ThreadsPrefix(c, n, NextJump(c, l[0]), l[1..]);
    }
  }

  /** Removing the last instruction, which is no open jump. */
  lemma CutStands(c: Code, a: Code, head: int, l: seq<nat>)
    requires Stands(c, a) && a != [] && a[|a| - 1] != OPEN && Threads(c, head, l) && Opens(a, l)
    ensures Stands(c[..|c| - 1], a[..|a| - 1]) && Threads(c[..|c| - 1], head, l)
  {
    var c', a' := c[..|c| - 1], a[..|a| - 1];
    forall n | 0 <= n < |a'|
      ensures StandsAt(c', a', n)
    {
      assert StandsAt(c, a, n);
    }
    forall i | 0 <= i < |l| ensures l[i] < |c| - 1
    {
      assert l[i] in l;
    }
    ThreadsPrefix(c, |c| - 1, head, l);
  }

  lemma {:induction false} ThreadsInside(c: Code, head: int, l: seq<nat>)
    requires Threads(c, head, l)
    ensures forall i :: 0 <= i < |l| ==> l[i] < |c| && c[l[i]].JMP?
    decreases |l|
  {
    if l != [] {
      ThreadsInside(c, NextJump(c, l[0]), l[1..]);
      forall i | 0 <= i < |l| ensures l[i] < |c| && c[l[i]].JMP?
      {
        if i > 0 { assert l[i] == l[1..][i - 1]; }
      }
    }
  }

  // ---------- patching ----------

  /** One step of `patchlistaux`. */
  function PatchNode(c: Code, j: nat, vtarget: nat, reg: nat, dtarget: nat): (r: Code)
    requires j < |c|
    ensures |r| == |c|
  {
    if Guarded(c, j) then c[j - 1 := PatchedTest(c[j - 1], reg)][j := JMP(vtarget - (j + 1))]
    else c[j := JMP(dtarget - (j + 1))]
  }

  lemma PatchNothing(a: Code, vtarget: nat, reg: nat, dtarget: nat)
    ensures Patch(a, [], vtarget, reg, dtarget) == a
  {
  }

  /** Patching the next jump of the list in place is patching one more jump. */
  lemma PatchOneMore(c: Code, a: Code, l: seq<nat>, i: nat, vtarget: nat, reg: nat, dtarget: nat)
    requires JumpList(a, l) && i < |l| && Stands(c, Patch(a, l[..i], vtarget, reg, dtarget))
    ensures l[i] < |c| && (Guarded(c, l[i]) <==> Guarded(a, l[i]))
    ensures Stands(PatchNode(c, l[i], vtarget, reg, dtarget), Patch(a, l[..i + 1], vtarget, reg, dtarget))
  {
    var j := l[i];
    assert j in l && a[j] == OPEN;
    var p, p' := Patch(a, l[..i], vtarget, reg, dtarget), Patch(a, l[..i + 1], vtarget, reg, dtarget);
    assert l[..i + 1] == l[..i] + [j];
    assert j !in l[..i];
    if j > 0 {
      assert StandsAt(c, p, j - 1);
      assert p[j - 1] == PatchedAt(a, l[..i], vtarget, reg, dtarget, j - 1);
      if j - 1 in l[..i] { assert j - 1 in l; }
    }
    assert Guarded(c, j) <==> Guarded(a, j);
    var c' := PatchNode(c, j, vtarget, reg, dtarget);
    forall n | 0 <= n < |a|
      ensures StandsAt(c', p', n)
    {
      assert StandsAt(c, p, n);
      assert p[n] == PatchedAt(a, l[..i], vtarget, reg, dtarget, n);
      assert p'[n] == PatchedAt(a, l[..i + 1], vtarget, reg, dtarget, n);
      if n in l[..i] { assert n in l; }
    }
  }

  /** ... and moves no other open jump. */
  lemma PatchOneUnmoved(c: Code, a: Code, l: seq<nat>, i: nat, vtarget: nat, reg: nat, dtarget: nat)
    requires JumpList(a, l) && i < |l| && Stands(c, Patch(a, l[..i], vtarget, reg, dtarget))
    ensures l[i] < |c| && Unmoved(a, c, PatchNode(c, l[i], vtarget, reg, dtarget), [l[i]])
  {
    PatchOneMore(c, a, l, i, vtarget, reg, dtarget);
    var c' := PatchNode(c, l[i], vtarget, reg, dtarget);
    forall j | 0 <= j < |a| && a[j] == OPEN && j !in [l[i]]
      ensures UnmovedAt(c, c', j)
    {
      assert StandsAt(c, Patch(a, l[..i], vtarget, reg, dtarget), j);
      assert Patch(a, l[..i], vtarget, reg, dtarget)[j] == PatchedAt(a, l[..i], vtarget, reg, dtarget, j);
    }
  }

  /** The state of the loop in `patchlistaux` after the first `i` jumps of the list. */
  ghost predicate PatchedSoFar(c0: Code, c: Code, a: Code, l: seq<nat>, i: nat, head: int, vtarget: nat, reg: nat, dtarget: nat) {
    && i <= |l| && Threads(c, head, l[i..])
    && Stands(c, Patch(a, l[..i], vtarget, reg, dtarget))
    && Unmoved(a, c0, c, l)
    && (forall j :: j in l[..i] ==> !TooFar(j, if Guarded(a, j) then vtarget else dtarget))
  }

  lemma PatchStep(c0: Code, c: Code, a: Code, l: seq<nat>, i: nat, head: nat, vtarget: nat, reg: nat, dtarget: nat)
    requires PatchedSoFar(c0, c, a, l, i, head, vtarget, reg, dtarget) && JumpList(a, l) && i < |l|
    ensures head == l[i] && head < |c| && c[head].JMP? && (Guarded(c, head) <==> Guarded(a, head))
    ensures !TooFar(head, if Guarded(a, head) then vtarget else dtarget) ==>
              PatchedSoFar(c0, PatchNode(c, head, vtarget, reg, dtarget), a, l, i + 1, NextJump(c, head), vtarget, reg, dtarget)
  {
    var c' := PatchNode(c, head, vtarget, reg, dtarget);
    assert l[i..][1..] == l[i + 1..] && l[..i + 1] == l[..i] + [head] && head in l;
    PatchOneMore(c, a, l, i, vtarget, reg, dtarget);
    PatchOneUnmoved(c, a, l, i, vtarget, reg, dtarget);
    RestOpen(a, l, i);
    ThreadsKept(a, c, c', [head], NextJump(c, head), l[i + 1..]);
    forall j | 0 <= j < |a| && a[j] == OPEN && j !in l
      ensures UnmovedAt(c0, c', j)
    {
      assert UnmovedAt(c0, c, j) && UnmovedAt(c, c', j);
    }
  }

  lemma RestOpen(a: Code, l: seq<nat>, i: nat)
    requires JumpList(a, l) && i < |l|
    ensures Opens(a, l[i + 1..]) && Apart(l[i + 1..], [l[i]])
  {
    forall j | j in l[i + 1..]
      ensures j < |a| && a[j] == OPEN && j !in [l[i]]
    {
      var n :| i + 1 <= n < |l| && l[n] == j;
      assert l[n] in l && l[i] != l[n];
    }
  }

  /** Dropping the value of one more TESTSET. */
  lemma RemoveOneMore(c: Code, c': Code, a: Code, l: seq<nat>, i: nat)
    requires JumpList(a, l) && i < |l| && Stands(c, RemoveValues(a, l[..i])) && l[i] < |c|
    requires c' == if Guarded(c, l[i]) then c[l[i] - 1 := PatchedTest(c[l[i] - 1], NO_REG)] else c
    ensures Stands(c', RemoveValues(a, l[..i + 1])) && Unmoved(a, c, c', [])
  {
    var j := l[i];
    assert j in l && l[..i + 1] == l[..i] + [j];
    var p, p' := RemoveValues(a, l[..i]), RemoveValues(a, l[..i + 1]);
    if j > 0 { assert StandsAt(c, p, j - 1); }
    assert j !in l[..i];
    forall n | 0 <= n < |a|
      ensures StandsAt(c', p', n) && (a[n] == OPEN ==> UnmovedAt(c, c', n))
    {
      assert StandsAt(c, p, n);
    }
  }

  lemma RemoveNothing(a: Code)
    ensures RemoveValues(a, []) == a
  {
  }

  // ---------- emitting ----------

  lemma StandsAppended(c: Code, a: Code, i: Instr)
    requires Stands(c, a)
    ensures Stands(c + [i], a + [i])
  {
    forall n | 0 <= n < |a + [i]|
      ensures StandsAt(c + [i], a + [i], n)
    {
      if n < |a| { assert StandsAt(c, a, n); }
    }
  }

  lemma UnmovedAppended(a: Code, c0: Code, c: Code, i: Instr, lists: seq<nat>)
    requires Unmoved(a, c0, c, lists)
    ensures Unmoved(a, c0, c + [i], lists)
  {
    forall j | 0 <= j < |a| && a[j] == OPEN && j !in lists
      ensures UnmovedAt(c0, c + [i], j)
    {
      assert UnmovedAt(c0, c, j);
    }
  }

  lemma NewFirst(a: Code, l: seq<nat>)
    requires JumpList(a, l)
    ensures JumpList(a + [OPEN], [|a|] + l) && Untouched(a, a + [OPEN], [])
  {
    forall i, j | 0 <= i < j < |[|a|] + l|
      ensures ([|a|] + l)[i] != ([|a|] + l)[j]
    {
      assert ([|a|] + l)[j] == l[j - 1] && l[j - 1] in l;
    }
  }

  lemma EmittedUntouched(g: Gen, i: Instr)
    requires GenOK(g)
    ensures Untouched(g.code, Emit(g, i).code, g.jpc)
  {
    SettledOK(g);
    forall j | 0 <= j < |g.code| && g.code[j] == OPEN && j !in g.jpc
      ensures OpenAlike(g.code, Emit(g, i).code, j)
    {
      assert OpenAlike(g.code, Settled(g), j);
    }
  }

  /** Only the last link of the first of two lists changed. */
  lemma LinkStands(a: Code, c: Code, c': Code, l: seq<nat>, l2: seq<nat>)
    requires Stands(c, a) && JumpList(a, l) && |c'| == |c|
    requires forall i :: 0 <= i < |c| && (l == [] || l2 == [] || i != l[|l| - 1]) ==> c'[i] == c[i]
    requires l != [] && l2 != [] ==> l[|l| - 1] < |c'| && c'[l[|l| - 1]].JMP?
    ensures Stands(c', a) && Unmoved(a, c, c', l)
  {
    if l != [] { assert l[|l| - 1] in l; }
    forall n | 0 <= n < |a|
      ensures StandsAt(c', a, n)
    {
      assert StandsAt(c, a, n);
    }
    forall n | 0 <= n < |a| && a[n] == OPEN && n !in l
      ensures UnmovedAt(c, c', n)
    {
      assert StandsAt(c, a, n);
    }
  }

  lemma ListPart(a: Code, l: seq<nat>, l2: seq<nat>)
    requires JumpList(a, l + l2)
    ensures JumpList(a, l)
  {
    forall j | j in l ensures j in l + l2 {}
    forall i, j | 0 <= i < j < |l| ensures l[i] != l[j]
    {
      assert (l + l2)[i] != (l + l2)[j];
    }
  }

  /** Changing an instruction that is no open jump. */
  lemma SetStands(c: Code, c': Code, a: Code, at: nat, i: Instr)
    requires Stands(c, a) && at < |a| && a[at] != OPEN && i != OPEN && c' == c[at := i]
    ensures Stands(c', a[at := i])
  {
    var a' := a[at := i];
    forall n | 0 <= n < |a'|
      ensures StandsAt(c', a', n)
    {
      assert StandsAt(c, a, n);
    }
  }

  lemma ThreadsSet(a: Code, c: Code, c': Code, l: seq<nat>, head: int, at: nat)
    requires Stands(c, a) && Opens(a, l) && Threads(c, head, l) && at < |a| && a[at] != OPEN && |c'| == |c|
    requires forall i :: 0 <= i < |c| && i != at ==> c'[i] == c[i]
    ensures Threads(c', head, l) && Unmoved(a, c, c', [])
  {
    ThreadsExcept(c, c', at, head, l);
  }

  /** Without open jumps there are no links, and the two codes are the same. */
  lemma StandsClosed(c: Code, a: Code)
    requires Stands(c, a) && OPEN !in a
    ensures c == a
  {
    forall i | 0 <= i < |a|
      ensures c[i] == a[i]
    {
      assert StandsAt(c, a, i);
    }
  }

  // ---------- constants ----------

  lemma IndexIs(ks: seq<Value>, v: Value, i: nat)
    requires NoDup(ks) && i < |ks| && ks[i] == v
    ensures IndexOf(ks, v) == i
  {
    var n := IndexOf(ks, v);
    assert ks[n] == ks[i];
  }

  /** The table `h` finds exactly the constants of `k`. */
  ghost predicate Indexes(h: map<Value, nat>, k: seq<Value>) {
    && NoDup(k)
    && (forall v :: v in h <==> v in k)
    && (forall v :: v in h ==> h[v] < |k| && k[h[v]] == v)
  }

  lemma IndexAdded(h: map<Value, nat>, k: seq<Value>, v: Value)
    requires Indexes(h, k) && v !in h
    ensures Indexes(h[v := |k|], k + [v]) && IndexOf(k + [v], v) == |k| && v !in k
  {
    IndexIs(k + [v], v, |k|);
  }

  lemma CutThenUnmoved(a: Code, c: Code, c1: Code, c': Code, lists: seq<nat>)
    requires Stands(c, a) && a != [] && a[|a| - 1] != OPEN
    requires c1 == c[..|c| - 1] && Unmoved(a[..|a| - 1], c1, c', [])
    ensures Unmoved(a, c, c', lists)
  {
    forall j | 0 <= j < |a| && a[j] == OPEN && j !in lists
      ensures UnmovedAt(c, c', j)
    {
      assert UnmovedAt(c1, c', j);
    }
  }

  lemma BoolsUnmoved(a0: Code, a1: Code, a2: Code, a3: Code, c0: Code, c1: Code, c2: Code, c3: Code, c4: Code)
    requires Unmoved(a0, c0, c1, []) && Unmoved(a1, c1, c2, []) && Unmoved(a2, c2, c3, []) && Unmoved(a3, c3, c4, [])
    requires a0 <= a1 && a1 <= a2 && a2 <= a3
    ensures Unmoved(a0, c0, c4, [])
  {
    forall j | 0 <= j < |a0| && a0[j] == OPEN
      ensures UnmovedAt(c0, c4, j)
    {
      assert UnmovedAt(c0, c1, j) && UnmovedAt(c1, c2, j) && UnmovedAt(c2, c3, j) && UnmovedAt(c3, c4, j);
    }
  }
}
