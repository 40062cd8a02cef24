/**
 Several processes sharing one manager. Each one checks, then records in a separate command; between the two the others
 go on, and the manager's minute may end at any moment, by its ticker or by any command. The checks here are those made
 away from a minute boundary, where a client never takes more than the manager offered it.
 */
module BudgetClients {
  import opened Nodes
  import opened RateLimit
  import opened ConsumptionTracker
  import opened Protocol
  import opened Budget

  datatype Client =
    | Resting
    | Wanting(key: string, tokens: nat)
    | Answered(key: string, tokens: nat, shared: Usage)
    | Going(key: string, tokens: nat)

  datatype Fleet = Fleet(book: Book<string>, clients: seq<Client>)

  datatype Move =
    | Want(i: nat, provider: Provider, tokens: nat)
    | Ask(i: nat, now: Time)
    | Decide(i: nat, local: Usage)   // whatever the client's own tracker answers
    | Spend(i: nat, now: Time)
    | Wipe(now: Time)

  predicate CanMove(f: Fleet, largest: nat, move: Move) {
    if move.Wipe? then true
    else if move.i >= |f.clients| then false
    else
      match move
      case Want(i, _, tokens) => f.clients[i].Resting? && tokens <= largest
      case Ask(i, _) => f.clients[i].Wanting?
      case Decide(i, _) => f.clients[i].Answered?
      case Spend(i, _) => f.clients[i].Going?
  }

  function Moved(f: Fleet, largest: nat, move: Move): Fleet
    requires CanMove(f, largest, move)
  {
    match move
    case Want(i, p, tokens) => f.(clients := f.clients[i := Wanting(ProviderKey(p), tokens)])
    case Ask(i, now) =>
      var Wanting(key, tokens) := f.clients[i];
      var book := f.book.At(now);
      Fleet(book, f.clients[i := Answered(key, tokens, book.Left(key))])
    case Decide(i, local) =>
      var Answered(key, tokens, shared) := f.clients[i];
      f.(clients := f.clients[i := if Enough(shared, local, false, tokens) then Going(key, tokens) else Wanting(key, tokens)])
    case Spend(i, now) =>
      var Going(key, tokens) := f.clients[i];
      Fleet(f.book.At(now).Consume(key, tokens, 1), f.clients[i := Resting])
    case Wipe(now) =>   // the manager's ticker
      f.(book := f.book.Wiped(now))
  }

  // ---------------------------------------------------------------- usage plus what is on its way

  /** What the client may still record on the strength of an answer it already has. */
  function Held(c: Client, key: string, k: Kind): nat {
    match c
    case Answered(own, tokens, shared) =>
      if own == key then Floor(if Part(shared, k) < Need(tokens, k) then Part(shared, k) else Need(tokens, k)) else 0
    case Going(own, tokens) => if own == key then Need(tokens, k) else 0
    case _ => 0
  }

  function HeldBy(cs: seq<Client>, key: string, k: Kind): nat {
    if cs == [] then 0 else HeldBy(cs[..|cs| - 1], key, k) + Held(cs[|cs| - 1], key, k)
  }

  lemma {:induction false} HeldUpdate(cs: seq<Client>, i: nat, c: Client, key: string, k: Kind)
    requires i < |cs|
    ensures HeldBy(cs[i := c], key, k) == HeldBy(cs, key, k) - Held(cs[i], key, k) + Held(c, key, k)
  {
    var all := cs[i := c];
    if i < |cs| - 1 {
      HeldUpdate(cs[..|cs| - 1], i, c, key, k);
      assert all[..|cs| - 1] == cs[..|cs| - 1][i := c];
    } else {
      assert all[..|cs| - 1] == cs[..|cs| - 1];
    }
  }

  /** All clients but one hold at most one largest request each. */
  lemma {:induction false} OthersHold(cs: seq<Client>, i: nat, key: string, k: Kind, most: nat)
    requires i < |cs| && forall c <- cs :: Held(c, key, k) <= most
    ensures HeldBy(cs, key, k) - Held(cs[i], key, k) <= (|cs| - 1) * most
    decreases |cs|
  {
    var rest := cs[..|cs| - 1];
    if i < |rest| {
      assert (|rest| - 1) * most + most == |rest| * most;
      OthersHold(rest, i, key, k, most);
    } else if rest != [] {
      assert (|rest| - 1) * most + most == |rest| * most;
      OthersHold(rest, 0, key, k, most);
    }
  }

  /** Usage plus everything still to be recorded stays within the budget and one request of each other client. */
  ghost predicate Bounded(f: Fleet, largest: nat, key: string, k: Kind) {
    var cap := Cap(f.book.Budget(key), k);
    && |f.clients| > 0 && cap >= 0 && Part(f.book.Used(key), k) >= 0
    && (forall c <- f.clients :: Held(c, key, k) <= Need(largest, k) && Held(c, key, k) <= cap)
    && Part(f.book.Used(key), k) + HeldBy(f.clients, key, k) <= cap + (|f.clients| - 1) * Need(largest, k)
  }

  /** Nobody asks for more than the largest request. */
  predicate Modest(f: Fleet, largest: nat) {
    forall c <- f.clients :: !c.Resting? ==> c.tokens <= largest
  }

  lemma ModestKept(f: Fleet, largest: nat, move: Move)
    requires Modest(f, largest) && CanMove(f, largest, move)
    ensures Modest(Moved(f, largest, move), largest)
  {
  }

  /** One client changes, the book does not. */
  lemma ClientChanged(f: Fleet, largest: nat, key: string, k: Kind, i: nat, c: Client)
    requires Bounded(f, largest, key, k) && i < |f.clients| && Held(c, key, k) <= Held(f.clients[i], key, k)
    ensures Bounded(f.(clients := f.clients[i := c]), largest, key, k)
  {
    HeldUpdate(f.clients, i, c, key, k);
  }

  /** A reset forgets the usage; what is on its way is recorded in the new minute. */
  lemma BookWiped(f: Fleet, largest: nat, key: string, k: Kind, book: Book<string>)
    requires Bounded(f, largest, key, k)
    requires book.budgets == f.book.budgets && (book == f.book || book.used == map[])
    ensures Bounded(f.(book := book), largest, key, k)
  {
    OthersHold(f.clients, 0, key, k, Need(largest, k));
  }

  lemma AskBounded(f: Fleet, largest: nat, key: string, k: Kind, i: nat)
    requires Bounded(f, largest, key, k) && Modest(f, largest) && i < |f.clients| && f.clients[i].Wanting?
    ensures var c := f.clients[i];
            Bounded(f.(clients := f.clients[i := Answered(c.key, c.tokens, f.book.Left(c.key))]), largest, key, k)
  {
    var Wanting(own, tokens) := f.clients[i];
    var c := Answered(own, tokens, f.book.Left(own));
    assert f.clients[i] in f.clients;
    HeldUpdate(f.clients, i, c, key, k);
    OthersHold(f.clients, i, key, k, Need(largest, k));
  }

  lemma SpendBounded(f: Fleet, largest: nat, key: string, k: Kind, i: nat)
    requires Bounded(f, largest, key, k) && i < |f.clients| && f.clients[i].Going?
    ensures var c := f.clients[i];
            Bounded(Fleet(f.book.Consume(c.key, c.tokens, 1), f.clients[i := Resting]), largest, key, k)
  {
    var c := f.clients[i];
    HeldUpdate(f.clients, i, Resting, key, k);
    assert Part(f.book.Consume(c.key, c.tokens, 1).Used(key), k) == Part(f.book.Used(key), k) + Held(c, key, k);
  }

  lemma BoundKept(f: Fleet, largest: nat, move: Move, key: string, k: Kind)
    requires Bounded(f, largest, key, k) && Modest(f, largest) && CanMove(f, largest, move)
    ensures Bounded(Moved(f, largest, move), largest, key, k)
  {
    hide Bounded;
    match move {
      case Want(i, p, tokens) => ClientChanged(f, largest, key, k, i, Wanting(ProviderKey(p), tokens));
      case Ask(i, now) =>
        BookWiped(f, largest, key, k, f.book.At(now));
        AskBounded(f.(book := f.book.At(now)), largest, key, k, i);
      case Decide(i, local) => ClientChanged(f, largest, key, k, i, Moved(f, largest, move).clients[i]);
      case Spend(i, now) =>
        BookWiped(f, largest, key, k, f.book.At(now));
        SpendBounded(f.(book := f.book.At(now)), largest, key, k, i);
      case Wipe(now) => BookWiped(f, largest, key, k, f.book.Wiped(now));
    }
  }

  // ---------------------------------------------------------------- runs

  /** `n` processes that have not asked anything yet. */
  function NewFleet(n: nat, book: Book<string>): Fleet {
    Fleet(book, seq(n, _ => Resting))
  }

  predicate NonNegative(book: Book<string>) {
    forall key <- book.budgets :: book.budgets[key].tpm >= 0 && book.budgets[key].rpm >= 0
  }

  lemma {:induction false} NothingHeld(n: nat, key: string, k: Kind)
    ensures HeldBy(seq(n, _ => Resting), key, k) == 0
  {
    if n > 0 {
      NothingHeld(n - 1, key, k);
      assert seq(n, _ => Resting)[..n - 1] == seq(n - 1, _ => Resting);
    }
  }

  lemma NewFleetBounded(n: nat, book: Book<string>, largest: nat, key: string, k: Kind)
    requires n > 0 && NonNegative(book) && book.used == map[]
    ensures Bounded(NewFleet(n, book), largest, key, k) && Modest(NewFleet(n, book), largest)
  {
    NothingHeld(n, key, k);
  }

  ghost function Play(n: nat, book: Book<string>, largest: nat, moves: seq<Move>): Option<Fleet> {
    if moves == [] then Some(NewFleet(n, book))
    else
      var before := Play(n, book, largest, moves[..|moves| - 1]);
      var move := moves[|moves| - 1];
      if before.Some? && CanMove(before.value, largest, move) then Some(Moved(before.value, largest, move)) else None
  }

  lemma {:induction false} PlayBounded(n: nat, book: Book<string>, largest: nat, moves: seq<Move>, key: string, k: Kind)
    requires n > 0 && NonNegative(book) && book.used == map[] && Play(n, book, largest, moves).Some?
    ensures var f := Play(n, book, largest, moves).value;
            && Bounded(f, largest, key, k) && Modest(f, largest)
            && |f.clients| == n && f.book.budgets == book.budgets
  {
    hide Bounded;
    if moves == [] {
      NewFleetBounded(n, book, largest, key, k);
    } else {
      var before := Play(n, book, largest, moves[..|moves| - 1]);
      PlayBounded(n, book, largest, moves[..|moves| - 1], key, k);
      ModestKept(before.value, largest, moves[|moves| - 1]);
      BoundKept(before.value, largest, moves[|moves| - 1], key, k);
    }
  }

  /**
   With `n` processes the manager's counters never exceed the budget by more than one largest request of each of the
   other processes, whenever the resets fall.
   */
  lemma ClientBound(n: nat, book: Book<string>, largest: nat, moves: seq<Move>, key: string, k: Kind)
    requires n > 0 && NonNegative(book) && book.used == map[] && Play(n, book, largest, moves).Some?
    ensures Part(Play(n, book, largest, moves).value.book.Used(key), k)
            <= Cap(book.Budget(key), k) + (n - 1) * Need(largest, k)
  {
    PlayBounded(n, book, largest, moves, key, k);
  }

  // ---------------------------------------------------------------- the bound is reached

  lemma PlayMore(n: nat, book: Book<string>, largest: nat, moves: seq<Move>, move: Move)
    requires Play(n, book, largest, moves).Some? && CanMove(Play(n, book, largest, moves).value, largest, move)
    ensures Play(n, book, largest, moves + [move]) == Some(Moved(Play(n, book, largest, moves).value, largest, move))
  {
    assert (moves + [move])[..|moves|] == moves;
  }

  /** The first `m` clients ask for the whole budget before anyone records anything. */
  function AskAll(m: nat, p: Provider, all: Usage, now: Time): seq<Move>
    requires all.tokens >= 0
  {
    if m == 0 then []
    else AskAll(m - 1, p, all, now) + [Want(m - 1, p, all.tokens)] + [Ask(m - 1, now)] + [Decide(m - 1, all)]
  }

  function SpendAll(m: nat, now: Time): seq<Move> {
    if m == 0 then [] else SpendAll(m - 1, now) + [Spend(m - 1, now)]
  }

  /** A fresh book with a budget for `key`. */
  predicate Opens(book: Book<string>, key: string, now: Time) {
    book.used == map[] && book.minute == Minute(now) && book.Budget(key).tpm >= 0 && book.Budget(key).rpm > 0
  }

  function GoingUpTo(n: nat, m: nat, key: string, tokens: nat): seq<Client> {
    seq(n, i => if i < m then Going(key, tokens) else Resting)
  }

  lemma {:induction false} AllAllowed(n: nat, m: nat, book: Book<string>, p: Provider, now: Time)
    requires m <= n && Opens(book, ProviderKey(p), now)
    ensures var all := book.Left(ProviderKey(p));
            Play(n, book, all.tokens, AskAll(m, p, all, now))
            == Some(Fleet(book, GoingUpTo(n, m, ProviderKey(p), all.tokens)))
  {
    var key, all := ProviderKey(p), book.Left(ProviderKey(p));
    if m == 0 {
      assert GoingUpTo(n, 0, key, all.tokens) == seq(n, _ => Resting);
    } else {
      AllAllowed(n, m - 1, book, p, now);
      var moves, before := AskAll(m - 1, p, all, now), GoingUpTo(n, m - 1, key, all.tokens);
      hide Play;
      PlayMore(n, book, all.tokens, moves, Want(m - 1, p, all.tokens));
      PlayMore(n, book, all.tokens, moves + [Want(m - 1, p, all.tokens)], Ask(m - 1, now));
      PlayMore(n, book, all.tokens, moves + [Want(m - 1, p, all.tokens)] + [Ask(m - 1, now)], Decide(m - 1, all));
      assert before[m - 1 := Wanting(key, all.tokens)][m - 1 := Answered(key, all.tokens, all)][m - 1 := Going(key, all.tokens)]
             == GoingUpTo(n, m, key, all.tokens);
    }
  }

  lemma {:induction false} AllSpent(n: nat, m: nat, book: Book<string>, p: Provider, now: Time)
    requires m <= n && Opens(book, ProviderKey(p), now)
    ensures var all := book.Left(ProviderKey(p));
            var r := Play(n, book, all.tokens, AskAll(n, p, all, now) + SpendAll(m, now));
            && r.Some? && |r.value.clients| == n && r.value.book.minute == book.minute
            && r.value.book.Used(ProviderKey(p)).tokens == m * all.tokens
            && forall i :: m <= i < n ==> r.value.clients[i] == Going(ProviderKey(p), all.tokens)
  {
    var all := book.Left(ProviderKey(p));
    var asked := AskAll(n, p, all, now);
    if m == 0 {
      AllAllowed(n, n, book, p, now);
      assert asked + SpendAll(0, now) == asked;
    } else {
      AllSpent(n, m - 1, book, p, now);
      PlayMore(n, book, all.tokens, asked + SpendAll(m - 1, now), Spend(m - 1, now));
      assert asked + SpendAll(m, now) == asked + SpendAll(m - 1, now) + [Spend(m - 1, now)];
      assert m * all.tokens == (m - 1) * all.tokens + all.tokens;
    }
  }

  /** With every process asking for the whole budget at once, the counter does reach the bound of `ClientBound`. */
  lemma ClientBoundIsReached(n: nat, book: Book<string>, p: Provider, now: Time)
    requires n > 0 && Opens(book, ProviderKey(p), now)
    ensures var all, tpm := book.Left(ProviderKey(p)), book.Budget(ProviderKey(p)).tpm;
            var r := Play(n, book, tpm, AskAll(n, p, all, now) + SpendAll(n, now));
            r.Some? && r.value.book.Used(ProviderKey(p)).tokens == tpm + (n - 1) * tpm
  {
    AllSpent(n, n, book, p, now);
    hide Play, AskAll, SpendAll, ProviderKey;
    OneAndTheOthers(n, book.Left(ProviderKey(p)).tokens, book.Budget(ProviderKey(p)).tpm);
  }

  lemma OneAndTheOthers(n: nat, left: int, tpm: int)
    requires left == tpm
    ensures n * left == tpm + (n - 1) * tpm
  {
  }
}
