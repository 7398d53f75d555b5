/** The bank service: accounts and a transaction log in the database, and a cache beside them. */
module Bank {
  import opened Names

  datatype Account = Account(number: string, balance: int, kind: string, owner: string)

  /** Amounts are whole numbers of the smallest unit of money. */
  datatype Transaction = Transaction(from: int, to: int, amount: int, at: int)

  datatype Stats = Stats(sentCount: nat, recvCount: nat, totalSent: int, totalRecv: int, average: real, last: Option<int>)

  datatype Summary = Summary(id: int, number: string, balance: int, kind: string, owner: string, stats: Stats)

  datatype Key = BalanceKey(id: int) | SummaryKey(id: int)

  datatype Value = BalanceValue(balance: int) | SummaryValue(summary: Summary)

  datatype State = State(accounts: map<int, Account>, log: seq<Transaction>, cache: map<Key, Value>)

  datatype Reply<+T> = Ok(value: T) | HttpError(status: int)

  // ---------------------------------------------------------------- what the database computes

  function Sent(log: seq<Transaction>, id: int): int {
    if log == [] then 0
    else Sent(log[..|log| - 1], id) + if log[|log| - 1].from == id then log[|log| - 1].amount else 0
  }

  function Received(log: seq<Transaction>, id: int): int {
    if log == [] then 0
    else Received(log[..|log| - 1], id) + if log[|log| - 1].to == id then log[|log| - 1].amount else 0
  }

  predicate Involves(t: Transaction, id: int) {
    t.from == id || t.to == id
  }

  function Involving(log: seq<Transaction>, id: int): seq<Transaction> {
    if log == [] then []
    else Involving(log[..|log| - 1], id) + if Involves(log[|log| - 1], id) then [log[|log| - 1]] else []
  }

  function SentCount(log: seq<Transaction>, id: int): nat {
    if log == [] then 0 else SentCount(log[..|log| - 1], id) + if log[|log| - 1].from == id then 1 else 0
  }

  function ReceivedCount(log: seq<Transaction>, id: int): nat {
    if log == [] then 0 else ReceivedCount(log[..|log| - 1], id) + if log[|log| - 1].to == id then 1 else 0
  }

  function Amount(log: seq<Transaction>): int {
    if log == [] then 0 else Amount(log[..|log| - 1]) + log[|log| - 1].amount
  }

  function Latest(log: seq<Transaction>): Option<int> {
    if log == [] then None
    else
      var before, at := Latest(log[..|log| - 1]), log[|log| - 1].at;
      if before.Some? then Some(Max(before.value, at)) else Some(at)
  }

  function Mean(total: int, count: nat): real {
    if count == 0 then 0.0 else total as real / count as real
  }

  lemma MeanExact(total: int, count: nat)
    ensures count > 0 ==> Mean(total, count) * count as real == total as real
    ensures Mean(total, 0) == 0.0
  {}

  /** One aggregate query over the transactions of an account. */
  function Aggregate(log: seq<Transaction>, id: int): Stats {
    var mine := Involving(log, id);
    Stats(SentCount(mine, id), ReceivedCount(mine, id), Sent(mine, id), Received(mine, id),
          Mean(Amount(mine), |mine|), Latest(mine))
  }

  /** The transactions an account sent, or received, by position. */
  ghost function SentAt(log: seq<Transaction>, id: int): set<nat> {
    set i | 0 <= i < |log| && log[i].from == id
  }

  ghost function ReceivedAt(log: seq<Transaction>, id: int): set<nat> {
    set i | 0 <= i < |log| && log[i].to == id
  }

  lemma {:induction false} SentCounted(log: seq<Transaction>, id: int)
    ensures SentCount(log, id) == |SentAt(log, id)|
    decreases |log|
  {
    if log != [] {
      var front, n := log[..|log| - 1], |log| - 1;
      SentCounted(front, id);
      assert SentAt(log, id) == SentAt(front, id) + (if log[n].from == id then {n} else {});
    }
  }

  lemma {:induction false} ReceivedCounted(log: seq<Transaction>, id: int)
    ensures ReceivedCount(log, id) == |ReceivedAt(log, id)|
    decreases |log|
  {
    if log != [] {
      var front, n := log[..|log| - 1], |log| - 1;
      ReceivedCounted(front, id);
      assert ReceivedAt(log, id) == ReceivedAt(front, id) + (if log[n].to == id then {n} else {});
    }
  }

  lemma {:induction false} LatestExact(log: seq<Transaction>)
    ensures Latest(log).None? <==> log == []
    ensures log != [] ==> (exists t :: t in log && t.at == Latest(log).value) && forall t :: t in log ==> t.at <= Latest(log).value
    decreases |log|
  {
    if log != [] {
      var front, last := log[..|log| - 1], log[|log| - 1];
      LatestExact(front);
      assert log == front + [last] && last in log;
      if front != [] && Latest(log) == Latest(front) {
        var t :| t in front && t.at == Latest(front).value;
        assert t in log;
      }
    }
  }

  lemma {:induction false} InvolvingExact(log: seq<Transaction>, id: int)
    ensures forall t :: t in Involving(log, id) <==> t in log && (t.from == id || t.to == id)
    ensures Amount(Involving(log, id)) == Amount(log) - Amount(Others(log, id))
    ensures |Involving(log, id)| == |log| - |Others(log, id)|
    decreases |log|
  {
    if log != [] {
      var front, last := log[..|log| - 1], log[|log| - 1];
      InvolvingExact(front, id);
      assert log == front + [last];
      AmountOne(Involving(front, id), last);
      AmountOne(Others(front, id), last);
    }
  }

  function Others(log: seq<Transaction>, id: int): seq<Transaction> {
    if log == [] then []
    else Others(log[..|log| - 1], id) + if log[|log| - 1].from != id && log[|log| - 1].to != id then [log[|log| - 1]] else []
  }

  lemma AmountOne(log: seq<Transaction>, t: Transaction)
    ensures Amount(log + [t]) == Amount(log) + t.amount && Amount(log + []) == Amount(log)
  {
    assert (log + [t])[..|log + [t]| - 1] == log;
    assert log + [] == log;
  }

  function Summarize(s: State, id: int): Summary
    requires id in s.accounts
  {
    var a := s.accounts[id];
    Summary(id, a.number, a.balance, a.kind, a.owner, Aggregate(s.log, id))
  }

  // ---------------------------------------------------------------- requests

  function Funded(accounts: map<int, Account>, id: int, amount: int): map<int, Account>
    requires id in accounts
  {
    accounts[id := accounts[id].(balance := accounts[id].balance + amount)]
  }

  function Invalidated(from: int, to: int): set<Key> {
    {BalanceKey(from), BalanceKey(to), SummaryKey(from), SummaryKey(to)}
  }

  /** Why a transfer is refused, if it is. */
  function Refusal(s: State, from: int, to: int, amount: int): Option<int> {
    if amount <= 0 || from == to then Some(400)
    else if from !in s.accounts then Some(404)
    else if s.accounts[from].balance < amount then Some(400)
    else if to !in s.accounts then Some(404)
    else None
  }

  function Transferred(s: State, from: int, to: int, amount: int, at: int): State {
    if Refusal(s, from, to, amount).Some? then s
    else State(Funded(Funded(s.accounts, from, -amount), to, amount),
               s.log + [Transaction(from, to, amount, at)],
               s.cache - Invalidated(from, to))
  }

  function BalanceRead(s: State, id: int): State {
    if BalanceKey(id) in s.cache || id !in s.accounts then s
    else s.(cache := s.cache[BalanceKey(id) := BalanceValue(s.accounts[id].balance)])
  }

  function SummaryRead(s: State, id: int): State {
    if SummaryKey(id) in s.cache || id !in s.accounts then s
    else s.(cache := s.cache[SummaryKey(id) := SummaryValue(Summarize(s, id))])
  }

  /** The cached value is what the database gives now. */
  predicate Agrees(s: State, key: Key, value: Value) {
    key.id in s.accounts &&
    match key
    case BalanceKey(id) => value == BalanceValue(s.accounts[id].balance)
    case SummaryKey(id) => value == SummaryValue(Summarize(s, id))
  }

  predicate Coherent(s: State) {
    forall key :: key in s.cache ==> Agrees(s, key, s.cache[key])
  }

  class Service {
    var accounts: map<int, Account>
    var log: seq<Transaction>
    var cache: map<Key, Value>

    function View(): State
      reads this
    {
      State(accounts, log, cache)
    }

    constructor (accounts: map<int, Account>, log: seq<Transaction>)
      ensures View() == State(accounts, log, map[]) && Coherent(View())
    {
      this.accounts, this.log, this.cache := accounts, log, map[];
    }

    /** The answer is the balance in the database, wherever it came from. */
    method GetBalance(id: int) returns (reply: Reply<int>)
      requires Coherent(View())
      modifies this`cache
      ensures reply == if id in accounts then Ok(accounts[id].balance) else HttpError(404)
      ensures View() == BalanceRead(old(View()), id)
    {
      var key := BalanceKey(id);
      if key in cache {
        assert Agrees(View(), key, cache[key]);
        return Ok(cache[key].balance);
      }
      if id !in accounts {
        return HttpError(404);
      }
      cache := cache[key := BalanceValue(accounts[id].balance)];
      reply := Ok(accounts[id].balance);
    }

    /** The answer is what the queries over accounts and log give, wherever it came from. */
    method GetAccountSummary(id: int) returns (reply: Reply<Summary>)
      requires Coherent(View())
      modifies this`cache
      ensures reply == if id in accounts then Ok(Summarize(View(), id)) else HttpError(404)
      ensures View() == SummaryRead(old(View()), id)
    {
      var key := SummaryKey(id);
      if key in cache {
        assert Agrees(View(), key, cache[key]);
        return Ok(cache[key].summary);
      }
      if id !in accounts {
        return HttpError(404);
      }
      var data := Summarize(View(), id);
      cache := cache[key := SummaryValue(data)];
      reply := Ok(data);
    }

    method Transfer(from: int, to: int, amount: int, at: int) returns (reply: Reply<int>)
      modifies this
      ensures reply == (var refusal := old(Refusal(View(), from, to, amount));
                        if refusal.Some? then HttpError(refusal.value) else Ok(amount))
      ensures View() == Transferred(old(View()), from, to, amount, at)
    {
      if amount <= 0 {
        return HttpError(400);
      }
      if from == to {
        return HttpError(400);
      }
      if from !in accounts {
        return HttpError(404);
      }
      if accounts[from].balance < amount {
        return HttpError(400);
      }
      if to !in accounts {
        return HttpError(404);
      }
      accounts := accounts[from := accounts[from].(balance := accounts[from].balance - amount)];
      accounts := accounts[to := accounts[to].(balance := accounts[to].balance + amount)];
      log := log + [Transaction(from, to, amount, at)];
      cache := cache - {BalanceKey(from), BalanceKey(to), SummaryKey(from), SummaryKey(to)};
      reply := Ok(amount);
    }

    method ClearCache()
      modifies this`cache
      ensures View() == old(View()).(cache := map[])
    {
      cache := map[];
    }
  }

  // ---------------------------------------------------------------- runs

  datatype Request =
    | Balance(id: int)
    | GetSummary(id: int)
    | Transfer(from: int, to: int, amount: int, at: int)
    | Clear
    | Expire(key: Key)

  function Serve(s: State, r: Request): State {
    match r
    case Balance(id) => BalanceRead(s, id)
    case GetSummary(id) => SummaryRead(s, id)
    case Transfer(from, to, amount, at) => Transferred(s, from, to, amount, at)
    case Clear => s.(cache := map[])
    case Expire(key) => s.(cache := s.cache - {key})
  }

  function Run(s: State, rs: seq<Request>): State {
    if rs == [] then s else Serve(Run(s, rs[..|rs| - 1]), rs[|rs| - 1])
  }

  /** A transaction between others does not change what the queries give for an account. */
  lemma OthersUntouched(log: seq<Transaction>, t: Transaction, id: int)
    requires !Involves(t, id)
    ensures Involving(log + [t], id) == Involving(log, id) && Aggregate(log + [t], id) == Aggregate(log, id)
  {
    assert (log + [t])[..|log + [t]| - 1] == log;
  }

  lemma TransferCoherent(s: State, from: int, to: int, amount: int, at: int)
    requires Coherent(s)
    ensures Coherent(Transferred(s, from, to, amount, at))
  {
    hide Aggregate;
    if Refusal(s, from, to, amount).None? {
      var u := Transferred(s, from, to, amount, at);
      forall key | key in u.cache
        ensures Agrees(u, key, u.cache[key])
      {
        assert key in s.cache && u.cache[key] == s.cache[key] && Agrees(s, key, s.cache[key]);
        assert key.id != from && key.id != to;
        OthersUntouched(s.log, Transaction(from, to, amount, at), key.id);
      }
    }
  }

  /** Every cached balance and summary is what the database gives now, after any sequence of requests and expiries. */
  lemma {:induction false} RunCoherent(s: State, rs: seq<Request>)
    requires Coherent(s)
    ensures Coherent(Run(s, rs))
    decreases |rs|
  {
    hide Aggregate, Transferred;
    if rs != [] {
      RunCoherent(s, rs[..|rs| - 1]);
      var r, t := rs[|rs| - 1], Run(s, rs[..|rs| - 1]);
      match r
      case Transfer(from, to, amount, at) => TransferCoherent(t, from, to, amount, at);
      case Balance(_) => {}
      case GetSummary(_) => {}
      case Clear => {}
      case Expire(_) => {}
    }
  }

  // ---------------------------------------------------------------- what a request does

  /** A transfer goes through exactly with a positive amount, two different accounts that exist, and enough money. A wrong
      request or too little money gives 400, a missing account 404; the money is looked at before the other account. */
  lemma RefusalExact(s: State, from: int, to: int, amount: int)
    ensures var r := Refusal(s, from, to, amount);
            && (r.None? <==> amount > 0 && from != to && from in s.accounts && to in s.accounts && s.accounts[from].balance >= amount)
            && (r == Some(404) <==> amount > 0 && from != to
                                    && (from !in s.accounts || (s.accounts[from].balance >= amount && to !in s.accounts)))
            && (r.Some? ==> r == Some(400) || r == Some(404))
  {}

  /** It moves the amount, writes one entry, touches no other account, and leaves what is cached for others. */
  lemma TransferExact(s: State, from: int, to: int, amount: int, at: int, id: int)
    requires Refusal(s, from, to, amount).None?
    ensures var t := Transferred(s, from, to, amount, at);
            && t.accounts.Keys == s.accounts.Keys && t.log == s.log + [Transaction(from, to, amount, at)]
            && t.accounts[from] == s.accounts[from].(balance := s.accounts[from].balance - amount)
            && t.accounts[to] == s.accounts[to].(balance := s.accounts[to].balance + amount)
            && (id in s.accounts && id != from && id != to ==> t.accounts[id] == s.accounts[id])
            && (forall key :: key in s.cache && key.id != from && key.id != to ==> key in t.cache && t.cache[key] == s.cache[key])
            && (forall key :: key in t.cache ==> key.id != from && key.id != to && key in s.cache)
  {}

  /** Reading caches what was read, and changes nothing else. */
  lemma ReadExact(s: State, id: int)
    requires Coherent(s)
    ensures var t := BalanceRead(s, id);
            && t == s.(cache := t.cache) && s.cache.Keys <= t.cache.Keys <= s.cache.Keys + {BalanceKey(id)}
            && (forall key :: key in s.cache ==> t.cache[key] == s.cache[key])
            && (id in s.accounts ==> BalanceKey(id) in t.cache && t.cache[BalanceKey(id)] == BalanceValue(s.accounts[id].balance))
    ensures var t := SummaryRead(s, id);
            && t == s.(cache := t.cache) && s.cache.Keys <= t.cache.Keys <= s.cache.Keys + {SummaryKey(id)}
            && (forall key :: key in s.cache ==> t.cache[key] == s.cache[key])
            && (id in s.accounts ==> SummaryKey(id) in t.cache && t.cache[SummaryKey(id)] == SummaryValue(Summarize(s, id)))
  {
    hide Aggregate;
    assert BalanceKey(id) in s.cache ==> Agrees(s, BalanceKey(id), s.cache[BalanceKey(id)]);
    assert SummaryKey(id) in s.cache ==> Agrees(s, SummaryKey(id), s.cache[SummaryKey(id)]);
  }

  /** A summary shows the account as it is in the database. */
  lemma SummaryShows(s: State, id: int)
    requires id in s.accounts
    ensures var m := Summarize(s, id);
            m.id == id && Account(m.number, m.balance, m.kind, m.owner) == s.accounts[id]
  {
    hide Aggregate;
  }

  // ---------------------------------------------------------------- money

  ghost function Sum(accounts: map<int, Account>, ids: set<int>): int
    requires ids <= accounts.Keys
    decreases |ids|
  {
    if ids == {} then 0
    else
      Inhabited(ids);
      var id :| id in ids;
      accounts[id].balance + Sum(accounts, ids - {id})
  }

  ghost function Total(accounts: map<int, Account>): int {
    Sum(accounts, accounts.Keys)
  }

  lemma Inhabited(ids: set<int>)
    requires ids != {}
    ensures exists id :: id in ids
  {
    assert (forall id: int :: id !in ids) ==> ids == {};
  }

  /** The sum does not depend on the order in which the accounts are taken. */
  lemma {:induction false} SumWithout(accounts: map<int, Account>, ids: set<int>, id: int)
    requires ids <= accounts.Keys && id in ids
    ensures Sum(accounts, ids) == accounts[id].balance + Sum(accounts, ids - {id})
    decreases |ids|
  {
    var first :| first in ids && Sum(accounts, ids) == accounts[first].balance + Sum(accounts, ids - {first});
    if first != id {
      SumWithout(accounts, ids - {first}, id);
      SumWithout(accounts, ids - {id}, first);
      assert ids - {first} - {id} == ids - {id} - {first};
    }
  }

  lemma {:induction false} SumSame(a: map<int, Account>, b: map<int, Account>, ids: set<int>)
    requires ids <= a.Keys && ids <= b.Keys && forall id :: id in ids ==> a[id] == b[id]
    ensures Sum(a, ids) == Sum(b, ids)
    decreases |ids|
  {
    if ids != {} {
      Inhabited(ids);
      var id :| id in ids;
      SumWithout(a, ids, id);
      SumWithout(b, ids, id);
      SumSame(a, b, ids - {id});
    }
  }

  lemma FundedTotal(accounts: map<int, Account>, id: int, amount: int)
    requires id in accounts
    ensures Total(Funded(accounts, id, amount)) == Total(accounts) + amount
  {
    var funded := Funded(accounts, id, amount);
    assert funded.Keys == accounts.Keys;
    SumWithout(accounts, accounts.Keys, id);
    SumWithout(funded, accounts.Keys, id);
    SumSame(accounts, funded, accounts.Keys - {id});
  }

  /** No sequence of requests creates or destroys money. */
  lemma {:induction false} MoneyConserved(s: State, rs: seq<Request>)
    ensures Total(Run(s, rs).accounts) == Total(s.accounts) && Run(s, rs).accounts.Keys == s.accounts.Keys
    decreases |rs|
  {
    if rs != [] {
      MoneyConserved(s, rs[..|rs| - 1]);
      var r, t := rs[|rs| - 1], Run(s, rs[..|rs| - 1]);
      if r.Transfer? && Refusal(t, r.from, r.to, r.amount).None? {
        FundedTotal(t.accounts, r.from, -r.amount);
        FundedTotal(Funded(t.accounts, r.from, -r.amount), r.to, r.amount);
      }
    }
  }

  /** The balance is the opening one, plus what was received and minus what was sent since. */
  predicate Explained(s: State, t: State, id: int) {
    && s.log <= t.log && id in s.accounts && id in t.accounts
    && t.accounts[id].balance ==
       s.accounts[id].balance + Received(t.log[|s.log|..], id) - Sent(t.log[|s.log|..], id)
  }

  lemma OneMore(log: seq<Transaction>, t: Transaction, id: int)
    ensures Received(log + [t], id) == Received(log, id) + if t.to == id then t.amount else 0
    ensures Sent(log + [t], id) == Sent(log, id) + if t.from == id then t.amount else 0
  {
    assert (log + [t])[..|log + [t]| - 1] == log;
  }

  lemma TransferExplained(s: State, t: State, id: int, from: int, to: int, amount: int, at: int)
    requires Explained(s, t, id)
    ensures Explained(s, Transferred(t, from, to, amount, at), id)
    ensures t.accounts[id].balance >= 0 ==> Transferred(t, from, to, amount, at).accounts[id].balance >= 0
  {
    hide Received, Sent;
    var since, entry := t.log[|s.log|..], Transaction(from, to, amount, at);
    assert (t.log + [entry])[|s.log|..] == since + [entry];
    OneMore(since, entry, id);
  }

  /** Every balance is explained by the log after any sequence of requests, and no request overdraws an account. */
  lemma {:induction false} BalanceExplained(s: State, rs: seq<Request>, id: int)
    requires id in s.accounts
    ensures Explained(s, Run(s, rs), id)
    ensures s.accounts[id].balance >= 0 ==> Run(s, rs).accounts[id].balance >= 0
    decreases |rs|
  {
    if rs == [] {
      assert s.log[|s.log|..] == [];
    } else {
      hide Transferred, Sent, Received;
      BalanceExplained(s, rs[..|rs| - 1], id);
      var r := rs[|rs| - 1];
      if r.Transfer? {
        TransferExplained(s, Run(s, rs[..|rs| - 1]), id, r.from, r.to, r.amount, r.at);
      }
    }
  }

  lemma {:induction false} InvolvingTotals(log: seq<Transaction>, id: int)
    ensures Sent(Involving(log, id), id) == Sent(log, id) && Received(Involving(log, id), id) == Received(log, id)
    ensures SentCount(Involving(log, id), id) == SentCount(log, id)
    ensures ReceivedCount(Involving(log, id), id) == ReceivedCount(log, id)
    decreases |log|
  {
    if log != [] {
      var front, last := log[..|log| - 1], log[|log| - 1];
      InvolvingTotals(front, id);
      if Involves(last, id) {
        var mine := Involving(log, id);
        assert mine[..|mine| - 1] == Involving(front, id);
      } else {
        assert Involving(log, id) == Involving(front, id);
      }
    }
  }

  /** What the aggregate is, over the whole log: how many transactions the account sent and received, the totals, the
      average over those it took part in, and the last of their dates. */
  lemma AggregateExact(log: seq<Transaction>, id: int)
    ensures var a := Aggregate(log, id);
            var count := |log| - |Others(log, id)|;
            && a.sentCount == |SentAt(log, id)| && a.recvCount == |ReceivedAt(log, id)|
            && a.totalSent == Sent(log, id) && a.totalRecv == Received(log, id)
            && (count > 0 ==> a.average * count as real == (Amount(log) - Amount(Others(log, id))) as real)
            && (count == 0 ==> a.average == 0.0)
            && LastExact(log, id, a.last)
  {
    hide *;
    AggregateForm(log, id);
    InvolvingTotals(log, id);
    SentCounted(log, id);
    ReceivedCounted(log, id);
    InvolvingExact(log, id);
    LatestInvolving(log, id);
    MeanExact(Amount(Involving(log, id)), |Involving(log, id)|);
  }

  lemma AggregateForm(log: seq<Transaction>, id: int)
    ensures var mine := Involving(log, id);
            Aggregate(log, id) == Stats(SentCount(mine, id), ReceivedCount(mine, id), Sent(mine, id), Received(mine, id),
                                        Mean(Amount(mine), |mine|), Latest(mine))
  {
    hide Sent, Received, SentCount, ReceivedCount, Amount, Latest, Involving, Mean;
  }

  /** The greatest of the dates of the transactions that the account took part in, if there are any. */
  predicate LastExact(log: seq<Transaction>, id: int, last: Option<int>) {
    && (last.Some? <==> exists t :: t in log && (t.from == id || t.to == id))
    && (last.Some? ==> exists t :: t in log && (t.from == id || t.to == id) && t.at == last.value)
    && (last.Some? ==> forall t :: t in log && (t.from == id || t.to == id) ==> t.at <= last.value)
  }

  lemma LatestInvolving(log: seq<Transaction>, id: int)
    ensures LastExact(log, id, Latest(Involving(log, id)))
  {
    hide Latest, Involving;
    var mine := Involving(log, id);
    InvolvingExact(log, id);
    LatestExact(mine);
    if mine != [] {
      assert mine[0] in mine;
    }
  }

  /** What a client is told adds up: from an empty log, the balance in a summary, cached or not, is the opening
      balance plus the total received and minus the total sent in the same summary. */
  lemma SummaryAddsUp(s: State, rs: seq<Request>, id: int)
    requires Coherent(s) && s.log == [] && id in s.accounts
    ensures var t := Run(s, rs);
            && id in t.accounts
            && (SummaryKey(id) in t.cache ==> t.cache[SummaryKey(id)] == SummaryValue(Summarize(t, id)))
            && Summarize(t, id).balance ==
               s.accounts[id].balance + Summarize(t, id).stats.totalRecv - Summarize(t, id).stats.totalSent
  {
    hide Sent, Received, Run;
    RunCoherent(s, rs);
    BalanceExplained(s, rs, id);
    var t := Run(s, rs);
    assert t.log[|s.log|..] == t.log;
    InvolvingTotals(t.log, id);
    assert SummaryKey(id) in t.cache ==> Agrees(t, SummaryKey(id), t.cache[SummaryKey(id)]);
  }
}
