/**
 * The one-time code store under concurrency: generating and redeeming a code are two cache operations each, and any
 * number of requests interleave between them. The one-time use rule is section 4.1.2 of RFC 6749.
 */
module Redemption {
  import opened Basics
  import opened Entities

  /** Where a request is: between minting and storing a code, or between reading and deleting one. */
  datatype Worker =
    | Minting(token: OneTimeToken)
    | Opening(code: string)
    | Holding(code: string, value: Option<OneTimeToken>)
    | Redeemed(code: string, value: Option<OneTimeToken>, deleted: bool)
    | Finished

  datatype Store = Store(codes: map<string, OneTimeToken>, minted: set<string>, workers: map<nat, Worker>)

  /** One cache operation or the start of a request; `ok` says whether the cache operation succeeds. */
  datatype Action =
    | BeginGenerate(worker: nat, token: OneTimeToken)
    | CacheSet(worker: nat, ok: bool)
    | BeginRedeem(worker: nat, code: string)
    | CacheGet(worker: nat, ok: bool)
    | CacheDelete(worker: nat, ok: bool)
    | Expire(code: string)

  const EMPTY := Store(map[], {}, map[])

  function Read(codes: map<string, OneTimeToken>, code: string): Option<OneTimeToken> {
    if code in codes then Some(codes[code]) else None
  }

  /** A worker starts once, with a freshly minted code if it generates one. */
  predicate Enabled(s: Store, a: Action) {
    match a
    case BeginGenerate(w, token) => w !in s.workers && token.id !in s.minted
    case BeginRedeem(w, _) => w !in s.workers
    case CacheSet(w, _) => w in s.workers && s.workers[w].Minting?
    case CacheGet(w, _) => w in s.workers && s.workers[w].Opening?
    case CacheDelete(w, _) => w in s.workers && s.workers[w].Holding?
    case Expire(_) => true
  }

  function Move(s: Store, w: nat, next: Worker): Store {
    s.(workers := s.workers[w := next])
  }

  function Apply(s: Store, a: Action): Store
    requires Enabled(s, a)
  {
    match a
    case BeginGenerate(w, token) => Move(s, w, Minting(token)).(minted := s.minted + {token.id})
    case CacheSet(w, ok) =>
      var token := s.workers[w].token;
      if ok then Move(s, w, Finished).(codes := s.codes[token.id := token]) else Move(s, w, Finished)
    case BeginRedeem(w, code) => Move(s, w, Opening(code))
    case CacheGet(w, ok) =>
      var code := s.workers[w].code;
      if ok then Move(s, w, Holding(code, Read(s.codes, code))) else Move(s, w, Finished)
    case CacheDelete(w, ok) =>
      var h := s.workers[w];
      var after := Move(s, w, Redeemed(h.code, h.value, ok));
      if ok then after.(codes := s.codes - {h.code}) else after
    case Expire(code) => s.(codes := s.codes - {code})
  }

  /** An interleaving of any number of requests, the latest action last; `None` if some action is not enabled. */
  function Run(from: Store, actions: seq<Action>): Option<Store> {
    if actions == [] then Some(from)
    else
      var front := Run(from, actions[..|actions| - 1]);
      var last := actions[|actions| - 1];
      if front.Some? && Enabled(front.value, last) then Some(Apply(front.value, last)) else None
  }

  /** Some redemption of `code` got its value and has finished with a successful delete. */
  ghost predicate Spent(s: Store, code: string) {
    exists w :: w in s.workers && SpentBy(s.workers[w], code)
  }

  predicate SpentBy(w: Worker, code: string) {
    w.Redeemed? && w.code == code && w.value.Some? && w.deleted
  }

  // ---------------------------------------------------------------- invariant

  /** The code is out of the hands of its generator: it was stored, or storing it failed. */
  ghost predicate Settled(s: Store, code: string) {
    code in s.minted && forall w | w in s.workers && s.workers[w].Minting? :: s.workers[w].token.id != code
  }

  ghost predicate Inv(s: Store) {
    && (forall c | c in s.codes :: Settled(s, c))
    && (forall w | w in s.workers && s.workers[w].Minting? :: s.workers[w].token.id in s.minted)
    && (forall v, w | v in s.workers && w in s.workers && s.workers[v].Minting? && s.workers[w].Minting? ::
          s.workers[v].token.id == s.workers[w].token.id ==> v == w)
    && (forall w | w in s.workers && s.workers[w].Holding? && s.workers[w].value.Some? :: Settled(s, s.workers[w].code))
    && (forall w, c | w in s.workers && SpentBy(s.workers[w], c) :: Settled(s, c) && c !in s.codes)
  }

  /** Only the generator that mints a code unsettles it, and no code settles before it is minted. */
  lemma SettledStays(s: Store, a: Action, code: string)
    requires Enabled(s, a) && Settled(s, code)
    ensures Settled(Apply(s, a), code)
  {
  }

  lemma StoredAreSettled(s: Store, a: Action)
    requires Inv(s) && Enabled(s, a)
    ensures forall c | c in Apply(s, a).codes :: Settled(Apply(s, a), c)
  {
    var s' := Apply(s, a);
    forall c | c in s'.codes ensures Settled(s', c) {
      if c in s.codes {
        SettledStays(s, a, c);
      }
    }
  }

  lemma ReadsAreSettled(s: Store, a: Action, w: nat)
    requires Inv(s) && Enabled(s, a)
    requires w in Apply(s, a).workers && Apply(s, a).workers[w].Holding? && Apply(s, a).workers[w].value.Some?
    ensures Settled(Apply(s, a), Apply(s, a).workers[w].code)
  {
    SettledStays(s, a, Apply(s, a).workers[w].code);
  }

  lemma SpentAreGone(s: Store, a: Action, w: nat, c: string)
    requires Inv(s) && Enabled(s, a)
    requires w in Apply(s, a).workers && SpentBy(Apply(s, a).workers[w], c)
    ensures Settled(Apply(s, a), c) && c !in Apply(s, a).codes
  {
    if w in s.workers && SpentBy(s.workers[w], c) {
      assert Settled(s, c) && c !in s.codes;
    } else {
      assert a.CacheDelete? && a.worker == w && s.workers[w].code == c;
    }
    SettledStays(s, a, c);
  }

  lemma MintersDiffer(s: Store, a: Action)
    requires Inv(s) && Enabled(s, a)
    ensures
      var s' := Apply(s, a);
      && (forall w | w in s'.workers && s'.workers[w].Minting? :: s'.workers[w].token.id in s'.minted)
      && (forall v, w | v in s'.workers && w in s'.workers && s'.workers[v].Minting? && s'.workers[w].Minting? ::
            s'.workers[v].token.id == s'.workers[w].token.id ==> v == w)
  {
    hide Settled, SpentBy, Read;
  }

  lemma ApplyKeeps(s: Store, a: Action)
    requires Inv(s) && Enabled(s, a)
    ensures Inv(Apply(s, a))
  {
    hide Settled, SpentBy, Apply, Enabled;
    var s' := Apply(s, a);
    assert Inv(s') by {
      StoredAreSettled(s, a);
      MintersDiffer(s, a);
      forall w | w in s'.workers && s'.workers[w].Holding? && s'.workers[w].value.Some?
        ensures Settled(s', s'.workers[w].code)
      {
        ReadsAreSettled(s, a, w);
      }
      forall w, c | w in s'.workers && SpentBy(s'.workers[w], c)
        ensures Settled(s', c) && c !in s'.codes
      {
        SpentAreGone(s, a, w, c);
      }
    }
  }

  lemma {:induction false} RunKeeps(from: Store, actions: seq<Action>)
    requires Inv(from) && Run(from, actions).Some?
    ensures Inv(Run(from, actions).value)
  {
    hide Inv, Apply, Enabled;
    if actions != [] {
      var front, last := actions[..|actions| - 1], actions[|actions| - 1];
      RunKeeps(from, front);
      ApplyKeeps(Run(from, front).value, last);
    }
  }

  // ---------------------------------------------------------------- one-time use

  /** Nothing was read for `code` by a worker that was not there in `early`. */
  ghost predicate LatecomersEmpty(s: Store, early: set<nat>, code: string) {
    forall w | w in s.workers && w !in early ::
      (s.workers[w].Holding? || s.workers[w].Redeemed?) && s.workers[w].code == code ==> s.workers[w].value.None?
  }

  /** The code was handed to the cache, and is not there. */
  ghost predicate Gone(s: Store, code: string) {
    Settled(s, code) && code !in s.codes
  }

  lemma GoneStep(s: Store, a: Action, early: set<nat>, code: string)
    requires Enabled(s, a) && Gone(s, code) && LatecomersEmpty(s, early, code)
    ensures Gone(Apply(s, a), code) && LatecomersEmpty(Apply(s, a), early, code)
  {
    SettledStays(s, a, code);
  }

  lemma {:induction false} GoneRun(from: Store, actions: seq<Action>, code: string)
    requires Run(from, actions).Some? && Gone(from, code)
    ensures Gone(Run(from, actions).value, code)
    ensures LatecomersEmpty(Run(from, actions).value, from.workers.Keys, code)
  {
    if actions != [] {
      hide Apply, Enabled, Gone, LatecomersEmpty;
      var front, last := actions[..|actions| - 1], actions[|actions| - 1];
      GoneRun(from, front, code);
      GoneStep(Run(from, front).value, last, from.workers.Keys, code);
    }
  }

  /** Every redemption of the code that begins later, in every interleaving, reads nothing. */
  ghost predicate NobodyGetsIt(s: Store, code: string) {
    forall actions: seq<Action> | Run(s, actions).Some? :: LatecomersEmpty(Run(s, actions).value, s.workers.Keys, code)
  }

  /** A worker number that nobody has. */
  lemma {:induction false} SomeoneNew(workers: set<nat>) returns (w: nat)
    ensures forall v | v in workers :: v < w
    decreases |workers|
  {
    w := 0;
    if workers != {} {
      var v :| v in workers;
      var u := SomeoneNew(workers - {v});
      w := if u <= v then v + 1 else u;
      assert workers == workers - {v} + {v};
    }
  }

  /** A later redemption that reads the code it finds stored. */
  lemma StoredIsRead(s: Store, early: set<nat>, code: string, late: nat)
    requires code in s.codes && late !in s.workers && late !in early
    ensures
      var read := Apply(Apply(s, BeginRedeem(late, code)), CacheGet(late, true));
      !LatecomersEmpty(read, early, code)
  {
    var read := Apply(Apply(s, BeginRedeem(late, code)), CacheGet(late, true));
    assert late in read.workers && read.workers[late] == Holding(code, Some(s.codes[code]));
  }

  lemma RunOfTwo(s: Store, a: Action, b: Action)
    requires Enabled(s, a) && Enabled(Apply(s, a), b)
    ensures Run(s, [a, b]) == Some(Apply(Apply(s, a), b))
  {
    hide Apply, Enabled;
    assert [a, b][..1] == [a] && [a][..0] == [];
    assert Run(s, [a]) == Some(Apply(s, a));
  }

  lemma RunOfThree(s: Store, a: Action, b: Action, c: Action)
    requires Enabled(s, a) && Enabled(Apply(s, a), b) && Enabled(Apply(Apply(s, a), b), c)
    ensures Run(s, [a, b, c]) == Some(Apply(Apply(Apply(s, a), b), c))
  {
    hide Apply, Enabled;
    RunOfTwo(s, a, b);
    assert [a, b, c][..2] == [a, b];
  }

  lemma RunOfFour(s: Store, a: Action, b: Action, c: Action, d: Action)
    requires Enabled(s, a) && Enabled(Apply(s, a), b) && Enabled(Apply(Apply(s, a), b), c)
    requires Enabled(Apply(Apply(Apply(s, a), b), c), d)
    ensures Run(s, [a, b, c, d]) == Some(Apply(Apply(Apply(Apply(s, a), b), c), d))
  {
    hide Apply, Enabled;
    RunOfThree(s, a, b, c);
    assert [a, b, c, d][..3] == [a, b, c];
  }

  /** A code that its generator still has to store can be read by a later redemption. */
  lemma MintingCodesComeBack(s: Store, code: string, maker: nat)
    requires maker in s.workers && s.workers[maker].Minting? && s.workers[maker].token.id == code
    ensures !NobodyGetsIt(s, code)
  {
    var late := SomeoneNew(s.workers.Keys);
    var a, b, c := CacheSet(maker, true), BeginRedeem(late, code), CacheGet(late, true);
    RunOfThree(s, a, b, c);
    StoredIsRead(Apply(s, a), s.workers.Keys, code, late);
    hide Run, Apply, Enabled, LatecomersEmpty;
    assert !LatecomersEmpty(Run(s, [a, b, c]).value, s.workers.Keys, code);
  }

  /** A code that was never minted can be minted, stored and read. */
  lemma UnmintedCodesComeBack(s: Store, token: OneTimeToken)
    requires token.id !in s.minted
    ensures !NobodyGetsIt(s, token.id)
  {
    var maker := SomeoneNew(s.workers.Keys);
    var late := maker + 1;
    var a, b, c, d := BeginGenerate(maker, token), CacheSet(maker, true), BeginRedeem(late, token.id), CacheGet(late, true);
    RunOfFour(s, a, b, c, d);
    StoredIsRead(Apply(Apply(s, a), b), s.workers.Keys, token.id, late);
    hide Run, Apply, Enabled, LatecomersEmpty;
    assert !LatecomersEmpty(Run(s, [a, b, c, d]).value, s.workers.Keys, token.id);
  }

  /**
   * Once a code is not stored, as after a successful delete, every redemption that begins later gets nothing, in every
   * interleaving of any number of generators and redeemers, exactly when the code was minted and its generator is done.
   */
  lemma DeletedCodesStaySpentWhen(s: Store, code: string)
    requires code !in s.codes
    ensures NobodyGetsIt(s, code) <==> Settled(s, code)
  {
    hide Run, LatecomersEmpty;
    if code !in s.minted {
      UnmintedCodesComeBack(s, OneTimeToken(code, "", [], "", None));
    } else if w :| w in s.workers && s.workers[w].Minting? && s.workers[w].token.id == code {
      MintingCodesComeBack(s, code, w);
    } else {
      assert Gone(s, code);
      forall actions | Run(s, actions).Some? ensures LatecomersEmpty(Run(s, actions).value, s.workers.Keys, code) {
        GoneRun(s, actions, code);
      }
    }
  }

  /**
   * In every run: once one redemption of a code got its value and finished with a successful delete, every redemption
   * of that code that begins later gets nothing.
   */
  lemma SpentCodesStaySpent(before: seq<Action>, code: string)
    requires Run(EMPTY, before).Some? && Spent(Run(EMPTY, before).value, code)
    ensures NobodyGetsIt(Run(EMPTY, before).value, code)
  {
    hide Run, NobodyGetsIt;
    assert Inv(EMPTY);
    RunKeeps(EMPTY, before);
    var s := Run(EMPTY, before).value;
    var w :| w in s.workers && SpentBy(s.workers[w], code);
    DeletedCodesStaySpentWhen(s, code);
  }

  /**
   * Two redemptions of a stored code that both read it before either deletes it both get it: the rule starts with
   * the end of a redemption, not with its beginning.
   */
  lemma OverlappingRedemptionsBothGetIt(s: Store, code: string, first: nat, second: nat, ok: bool)
    requires code in s.codes && first !in s.workers && second !in s.workers && first != second
    ensures
      var s1 := Apply(Apply(s, BeginRedeem(first, code)), CacheGet(first, true));
      var s2 := Apply(Apply(s1, BeginRedeem(second, code)), CacheGet(second, true));
      var s3 := Apply(Apply(s2, CacheDelete(first, true)), CacheDelete(second, ok));
      && s3.workers[first] == Redeemed(code, Some(s.codes[code]), true)
      && s3.workers[second] == Redeemed(code, Some(s.codes[code]), ok)
  {
  }

  /** A second redemption that begins after the first has ended gets the code exactly when the first delete failed. */
  lemma LaterRedemptionGetsItWhen(s: Store, code: string, first: nat, second: nat, deleted: bool)
    requires code in s.codes && first !in s.workers && second !in s.workers && first != second
    ensures
      var s1 := Apply(Apply(Apply(s, BeginRedeem(first, code)), CacheGet(first, true)), CacheDelete(first, deleted));
      var s2 := Apply(Apply(s1, BeginRedeem(second, code)), CacheGet(second, true));
      s2.workers[second].value.Some? <==> !deleted
  {
  }

  /** A redemption that reads before the generator has stored the code spends nothing, even with a successful delete. */
  lemma EarlyRedemptionSpendsNothing(s: Store, token: OneTimeToken, maker: nat, early: nat, late: nat)
    requires token.id !in s.minted && token.id !in s.codes
    requires maker !in s.workers && early !in s.workers && late !in s.workers
    requires maker != early && early != late && maker != late
    ensures
      var s1 := Apply(Apply(s, BeginGenerate(maker, token)), BeginRedeem(early, token.id));
      var s2 := Apply(Apply(s1, CacheGet(early, true)), CacheDelete(early, true));
      var s3 := Apply(Apply(Apply(s2, CacheSet(maker, true)), BeginRedeem(late, token.id)), CacheGet(late, true));
      s2.workers[early] == Redeemed(token.id, None, true) && s3.workers[late] == Holding(token.id, Some(token))
  {
  }
}
