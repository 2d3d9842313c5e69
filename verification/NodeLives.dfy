/**
 * Whole lives of one node, with changing membership.
 *
 * A life starts on an empty disk and goes on with honest events, restarts, and crashes after any
 * durable write of an event. Throughout, the applied membership is the one that the log prescribes.
 */
module NodeLives {
  import opened Basics
  import opened RaftTypes
  import opened Membership
  import opened LogStore
  import opened Node
  import opened Handlers
  import opened Coherence
  import opened Recovery
  import opened NodeRuns
  import SnapshotCodec

  // ---------------------------------------------------------------- one log is as good as another

  lemma {:induction false} FoldConcat<S>(app: Machine<S>, a: seq<Entry>, b: seq<Entry>, c: seq<Entry>)
    requires Fold(app, a) == Fold(app, b)
    ensures Fold(app, a + c) == Fold(app, b + c)
  {
    if c == [] {
      assert a + c == a && b + c == b;
    } else {
      var last := |c| - 1;
      FoldConcat(app, a, b, c[..last]);
      assert (a + c)[..|a + c| - 1] == a + c[..last] && (b + c)[..|b + c| - 1] == b + c[..last];
    }
  }

  /** Two logs of one store agree from the snapshot on, and fold to the same state at it. */
  lemma SameAtBase<S(!new)>(env: Env<S>, c0: Config, l: Log, h: seq<Entry>, g: seq<Entry>)
    requires Backed(env, c0, l, h) && Backed(env, c0, l, g)
    ensures |h| == |g| && l.base <= |h| && h[l.base..] == g[l.base..]
    ensures FoldConfig(c0, h[..l.base]) == FoldConfig(c0, g[..l.base])
    ensures Fold(env.app, h[..l.base]) == Fold(env.app, g[..l.base])
  {
    hide SafeConfig, IsJoint, Lawful, FoldConfig, Fold, Listing, SnapshotCodec.Decode, SafeEntry;
    if l.base > 0 {
      FoldIsSafe(c0, h[..l.base]);
      FoldIsSafe(c0, g[..l.base]);
      EnvelopeNames(FoldConfig(c0, h[..l.base]), SnapshotCodec.Decode(l.image).value);
      EnvelopeNames(FoldConfig(c0, g[..l.base]), SnapshotCodec.Decode(l.image).value);
    } else {
      assert h[..0] == g[..0];
    }
  }

  lemma SameFolds<S(!new)>(env: Env<S>, c0: Config, l: Log, h: seq<Entry>, g: seq<Entry>, k: nat)
    requires Backed(env, c0, l, h) && Backed(env, c0, l, g) && l.base <= k <= |h|
    ensures |h| == |g| && FoldConfig(c0, h[..k]) == FoldConfig(c0, g[..k]) && Fold(env.app, h[..k]) == Fold(env.app, g[..k])
  {
    hide Backed, FoldConfig, Fold;
    SameAtBase(env, c0, l, h, g);
    var rest := h[l.base..][..k - l.base];
    assert h[..k] == h[..l.base] + rest && g[..k] == g[..l.base] + rest;
    FoldConcat(env.app, h[..l.base], g[..l.base], rest);
    FoldConfigConcat(c0, h[..l.base], rest);
    FoldConfigConcat(c0, g[..l.base], rest);
  }

  /** A node that is sound for one log of its store is sound for every other. */
  lemma SoundForAny<S(!new)>(env: Env<S>, c0: Config, n: Node<S>, h: seq<Entry>, g: seq<Entry>)
    requires Sound(env, c0, n, h) && Backed(env, c0, n.disk.log, g)
    ensures Sound(env, c0, n, g)
  {
    hide FoldConfig, Fold, Represents, ImageOk, Ready;
    SoundBacked(env, c0, n, h);
    BackedBase(n.disk.log, h);
    SameFolds(env, c0, n.disk.log, h, g, n.applied);
    SameFolds(env, c0, n.disk.log, h, g, n.disk.log.base);
  }

  // ---------------------------------------------------------------- lives

  datatype Moment<S> = Moment(node: Node<S>, log: seq<Entry>)

  /** `h` is a log that the store of `r` stands for, with all that was committed at `a`. */
  ghost predicate Stands<S(!new)>(env: Env<S>, c0: Config, a: Moment<S>, r: Node<S>, h: seq<Entry>) {
    Backed(env, c0, r.disk.log, h) && Kept(a.log, h, a.node.commit)
  }

  /** The log at `b` is such a log, if there is one. */
  ghost predicate Succeeds<S(!new)>(env: Env<S>, c0: Config, a: Moment<S>, b: Moment<S>) {
    (exists h :: Stands(env, c0, a, b.node, h)) ==> Stands(env, c0, a, b.node, b.log)
  }

  ghost predicate Acts<S>(env: Env<S>, c0: Config, a: Moment<S>, b: Moment<S>, ev: Event) {
    Honest(env, c0, a.node, a.log, ev) && b.node == React(env, a.node, ev)
  }

  /** The write `k` of the event was the last before a crash. */
  ghost predicate Crashes<S>(env: Env<S>, c0: Config, a: Moment<S>, b: Moment<S>, ev: Event, k: nat) {
    && Honest(env, c0, a.node, a.log, ev) && |a.node.trail| <= k < |React(env, a.node, ev).trail|
    && Boot(env, a.node.me, c0, React(env, a.node, ev).trail[k]) == Some(b.node)
  }

  ghost predicate Reopens<S>(env: Env<S>, c0: Config, a: Moment<S>, b: Moment<S>) {
    Boot(env, a.node.me, c0, a.node.disk) == Some(b.node)
  }

  ghost predicate NextMoment<S(!new)>(env: Env<S>, c0: Config, a: Moment<S>, b: Moment<S>) {
    && Succeeds(env, c0, a, b)
    && ((exists ev :: Acts(env, c0, a, b, ev)) || (exists ev, k :: Crashes(env, c0, a, b, ev, k)) || Reopens(env, c0, a, b))
  }

  ghost predicate Begins<S>(env: Env<S>, c0: Config, me: Id, a: Moment<S>) {
    Boot(env, me, c0, Disk(0, None, None, EMPTY)) == Some(a.node) && a.log == []
  }

  ghost predicate Lived<S(!new)>(env: Env<S>, c0: Config, me: Id, ms: seq<Moment<S>>) {
    ms != [] && Begins(env, c0, me, ms[0]) && forall i :: 0 <= i < |ms| - 1 ==> NextMoment(env, c0, ms[i], ms[i + 1])
  }

  // ---------------------------------------------------------------- the first moment and the next

  lemma BeginsSound<S(!new)>(env: Env<S>, c0: Config, me: Id)
    requires Lawful(env.app) && SafeConfig(c0) && !IsJoint(c0)
    ensures var b := Boot(env, me, c0, Disk(0, None, None, EMPTY));
            b.Some? && Sound(env, c0, b.value, []) && b.value.me == me
  {
    hide Boot, Sound;
    BootIsSound(env, c0, me, Disk(0, None, None, EMPTY), []);
  }

  lemma StandsSound<S(!new)>(env: Env<S>, c0: Config, a: Moment<S>, b: Moment<S>, h: seq<Entry>)
    requires Succeeds(env, c0, a, b) && Sound(env, c0, b.node, h) && Kept(a.log, h, a.node.commit)
    ensures Sound(env, c0, b.node, b.log) && Kept(a.log, b.log, a.node.commit)
  {
    hide Sound, Backed, Kept;
    SoundBacked(env, c0, b.node, h);
    assert Stands(env, c0, a, b.node, h);
    SoundForAny(env, c0, b.node, h, b.log);
  }

  /** Whatever happens next, the node stays sound and its log keeps what was committed. */
  lemma NextKeepsSound<S(!new)>(env: Env<S>, c0: Config, a: Moment<S>, b: Moment<S>)
    requires Sound(env, c0, a.node, a.log) && NextMoment(env, c0, a, b)
    ensures Sound(env, c0, b.node, b.log) && Kept(a.log, b.log, a.node.commit)
  {
    hide Sound, Honest, React, Boot, Succeeds, Kept, Logged;
    if ev :| Acts(env, c0, a, b, ev) {
      var h := StepKeepsSound(env, c0, a.node, a.log, ev);
      StandsSound(env, c0, a, b, h);
    } else if ev, k :| Crashes(env, c0, a, b, ev, k) {
      var h := CrashKeepsSound(env, c0, a.node, a.log, ev, k);
      StandsSound(env, c0, a, b, h);
    } else {
      RestartKeepsSound(env, c0, a.node, a.log);
      CommitKept(env, c0, a.node, a.log);
      StandsSound(env, c0, a, b, a.log);
    }
  }

  lemma CommitKept<S(!new)>(env: Env<S>, c0: Config, n: Node<S>, h: seq<Entry>)
    requires Sound(env, c0, n, h)
    ensures Kept(h, h, n.commit)
  {
    hide Ready, Represents, FoldConfig, Fold, ImageOk;
  }

  /** Every step of a life can be taken: a crash or a restart never finds a disk it cannot open. */
  lemma LifeGoesOn<S(!new)>(env: Env<S>, c0: Config, a: Moment<S>, ev: Event)
    requires Sound(env, c0, a.node, a.log) && Honest(env, c0, a.node, a.log, ev)
    ensures exists h :: Stands(env, c0, a, React(env, a.node, ev), h)
    ensures Boot(env, a.node.me, c0, a.node.disk).Some?
    ensures forall k :: |a.node.trail| <= k < |React(env, a.node, ev).trail| ==>
              Boot(env, a.node.me, c0, React(env, a.node, ev).trail[k]).Some?
  {
    hide Sound, Honest, React, Boot, Kept, Logged, Backed;
    var h := StepKeepsSound(env, c0, a.node, a.log, ev);
    SoundBacked(env, c0, React(env, a.node, ev), h);
    assert Stands(env, c0, a, React(env, a.node, ev), h);
    RestartKeepsSound(env, c0, a.node, a.log);
    forall k | |a.node.trail| <= k < |React(env, a.node, ev).trail|
      ensures Boot(env, a.node.me, c0, React(env, a.node, ev).trail[k]).Some?
    {
      var h' := CrashKeepsSound(env, c0, a.node, a.log, ev, k);
    }
  }

  // ---------------------------------------------------------------- every moment

  lemma {:induction false} AlwaysSound<S(!new)>(env: Env<S>, c0: Config, me: Id, ms: seq<Moment<S>>, i: nat)
    requires Lawful(env.app) && SafeConfig(c0) && !IsJoint(c0) && Lived(env, c0, me, ms) && i < |ms|
    ensures Sound(env, c0, ms[i].node, ms[i].log)
  {
    hide Sound, NextMoment, Boot, Lawful, SafeConfig, IsJoint;
    if i == 0 {
      BeginsSound(env, c0, me);
    } else {
      AlwaysSound(env, c0, me, ms, i - 1);
      NextKeepsSound(env, c0, ms[i - 1], ms[i]);
    }
  }

  /**
   * At every moment of every life, the applied membership and the application state are those that
   * the log prescribes at the applied index, and so is what the snapshot on disk restores to.
   */
  lemma AppliedFollowsLog<S(!new)>(env: Env<S>, c0: Config, me: Id, ms: seq<Moment<S>>, i: nat)
    requires Lawful(env.app) && SafeConfig(c0) && !IsJoint(c0) && Lived(env, c0, me, ms) && i < |ms|
    ensures var n, h := ms[i].node, ms[i].log;
            && Represents(n.disk.log, h) && n.applied == n.commit <= |h|
            && n.config == ConfigurationAt(n, n.applied) == FoldConfig(c0, h[..n.applied])
            && n.machine == Fold(env.app, h[..n.applied])
    ensures var n, h := ms[i].node, ms[i].log;
            n.disk.log.base > 0 ==>
              && n.disk.log.base <= |h| && SnapshotCodec.Decode(n.disk.log.image).Some?
              && env.app.restore(SnapshotCodec.Decode(n.disk.log.image).value.state)
                 == Some(Fold(env.app, h[..n.disk.log.base]))
    ensures i + 1 < |ms| ==> Kept(ms[i].log, ms[i + 1].log, ms[i].node.commit)
  {
    hide Lived, NextMoment, Lawful, SafeConfig, IsJoint, ConfigurationAt, Fold, FoldConfig, SnapshotCodec.Decode, Represents,
      Ready, ImageOk;
    AlwaysSound(env, c0, me, ms, i);
    MembershipFollowsLog(env, c0, ms[i].node, ms[i].log);
    if i + 1 < |ms| {
      NextOf(env, c0, me, ms, i);
      NextKeepsSound(env, c0, ms[i], ms[i + 1]);
    }
  }

  lemma NextOf<S(!new)>(env: Env<S>, c0: Config, me: Id, ms: seq<Moment<S>>, i: nat)
    requires Lived(env, c0, me, ms) && i + 1 < |ms|
    ensures NextMoment(env, c0, ms[i], ms[i + 1])
  {
    hide NextMoment, Begins;
  }
}
