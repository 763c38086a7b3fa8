/**
 Reading a ledger: pages by cursor, and reconciliation (internal/app/wallets.go,
 internal/adapters/postgres/ledger.go, internal/domain/wagering/reconcile.go).
 */
module Ledger {
  import opened Prelude
  import opened Domain
  import opened Store
  import opened Cursor

  const DEFAULT_PAGE: nat := 50
  const MAX_PAGE: nat := 200
  /** The largest version a bigint column can hold. */
  const MAX_VERSION: nat := 0x7fff_ffff_ffff_ffff

  function LimitOf(asked: int): (limit: nat)
    ensures 1 <= limit <= MAX_PAGE
    ensures 1 <= asked <= MAX_PAGE ==> limit == asked
    ensures asked <= 0 ==> limit == DEFAULT_PAGE
    ensures asked > MAX_PAGE ==> limit == MAX_PAGE
  {
    if asked <= 0 then DEFAULT_PAGE else if asked > MAX_PAGE then MAX_PAGE else asked
  }

  // ----- One page ------------------------------------------------------------

  /** The first `limit` entries beyond a version, in the ledger's order. */
  function Beyond(l: seq<Entry>, after: nat, limit: nat): seq<Entry> {
    if l == [] || limit == 0 then []
    else if l[0].version > after then [l[0]] + Beyond(l[1..], after, limit - 1)
    else Beyond(l[1..], after, limit)
  }

  /** Page: the clamp, and the row loop. */
  method Page(l: seq<Entry>, afterVersion: nat, limit: nat) returns (entries: seq<Entry>)
    ensures entries == Beyond(l, if afterVersion > MAX_VERSION then MAX_VERSION else afterVersion, limit)
  {
    hide Beyond;
    var after := if afterVersion > MAX_VERSION then MAX_VERSION else afterVersion;
    entries := [];
    var i := 0;
    assert l[0..] == l;
    while i < |l| && |entries| < limit
      invariant 0 <= i <= |l| && |entries| <= limit
      invariant entries + Beyond(l[i..], after, limit - |entries|) == Beyond(l, after, limit)
    {
      BeyondStep(l, i, after, limit - |entries|);
      if l[i].version > after {
        Regroup(entries, l[i], Beyond(l[i + 1..], after, limit - |entries| - 1));
        entries := entries + [l[i]];
      }
      i := i + 1;
    }
    NoneBeyond(l[i..], after, limit - |entries|);
  }

  lemma Regroup(s: seq<Entry>, e: Entry, rest: seq<Entry>)
    ensures s + ([e] + rest) == (s + [e]) + rest
  {
  }

  lemma NoneBeyond(l: seq<Entry>, after: nat, limit: nat)
    requires l == [] || limit == 0
    ensures Beyond(l, after, limit) == []
  {
  }

  lemma BeyondStep(l: seq<Entry>, i: nat, after: nat, limit: nat)
    requires i < |l| && limit > 0
    ensures Beyond(l[i..], after, limit)
            == if l[i].version > after then [l[i]] + Beyond(l[i + 1..], after, limit - 1) else Beyond(l[i + 1..], after, limit)
  {
    assert l[i..][1..] == l[i + 1..];
  }

  datatype LedgerPage = LedgerPage(entries: seq<Entry>, next: Option<Text>)

  /** Wallets.Ledger once the wallet is known to exist. */
  function PageAt(l: seq<Entry>, w: Text, cursor: Text, asked: int): Result<LedgerPage, CursorError> {
    match DecodeCursor(cursor, w)
    case Err(e) => Err(e)
    case Ok(after) =>
      var limit := LimitOf(asked);
      var entries := Beyond(l, if after > MAX_VERSION then MAX_VERSION else after, limit);
      Ok(LedgerPage(entries, if |entries| == limit then Some(EncodeCursor(w, entries[|entries| - 1].version)) else None))
  }

  lemma {:induction false} BeyondIsAWindow(l: seq<Entry>, start: nat, i: nat, after: nat, limit: nat)
    requires forall k {:trigger l[k].version} :: 0 <= k < |l| ==> l[k].version == start + k
    requires i <= |l| && (if i == 0 then after < start else after == start + i - 1)
    ensures Beyond(l, after, limit) == l[i..if i + limit < |l| then i + limit else |l|]
  {
    if l != [] && limit > 0 {
      var rest := l[1..];
      assert forall k {:trigger rest[k].version} :: 0 <= k < |rest| ==> rest[k] == l[k + 1];
      if i == 0 {
        AllAreBeyond(l, start, after, limit);
      } else {
        BeyondIsAWindow(rest, start + 1, i - 1, after, limit);
      }
    }
  }

  lemma {:induction false} AllAreBeyond(l: seq<Entry>, start: nat, after: nat, limit: nat)
    requires forall k {:trigger l[k].version} :: 0 <= k < |l| ==> l[k].version == start + k
    requires after < start
    ensures Beyond(l, after, limit) == l[..if limit < |l| then limit else |l|]
  {
    if l != [] && limit > 0 {
      var rest := l[1..];
      assert forall k {:trigger rest[k].version} :: 0 <= k < |rest| ==> rest[k] == l[k + 1];
      AllAreBeyond(rest, start + 1, after, limit - 1);
      var n := if limit < |l| then limit else |l|;
      assert l[0].version > after;
      assert l[..n] == [l[0]] + rest[..n - 1];
    }
  }

  /** A ledger whose versions a bigint column holds. */
  predicate Stored(l: seq<Entry>) {
    Chain(l) && (l != [] ==> l[|l| - 1].version <= MAX_VERSION)
  }

  /** The cursor that stands after the first i entries. */
  predicate StandsAt(l: seq<Entry>, w: Text, cursor: Text, i: nat) {
    i <= |l| && cursor == if i == 0 then [] else EncodeCursor(w, l[i - 1].version)
  }

  /** A page from where a cursor stands is the next entries, and its own cursor
      stands right after them; there is one exactly when the page is full. */
  lemma PageContinues(l: seq<Entry>, w: Text, cursor: Text, i: nat, asked: int)
    requires Stored(l) && IsWalletText(w) && StandsAt(l, w, cursor, i)
    ensures var limit := LimitOf(asked);
            var j := if i + limit < |l| then i + limit else |l|;
            && PageAt(l, w, cursor, asked).Ok?
            && var page := PageAt(l, w, cursor, asked).value;
               && page.entries == l[i..j]
               && (page.next.Some? <==> i + limit <= |l|)
               && (page.next.Some? ==> StandsAt(l, w, page.next.value, j))
  {
    hide EncodeCursor, DecodeCursor;
    if l == [] {
      assert i == 0;
    }
    var after := if i == 0 then 0 else l[i - 1].version;
    if i == 0 {
      EmptyCursorStarts(w);
    } else {
      assert l[i - 1].version <= MAX_VERSION;
      CursorRoundTrips(w, after, w);
    }
    if l != [] {
      BeyondIsAWindow(l, l[0].version, i, after, LimitOf(asked));
    }
  }

  lemma EmptyCursorStarts(w: Text)
    ensures DecodeCursor([], w) == Ok(0)
  {
  }

  // ----- Following cursors ---------------------------------------------------

  /** Pages read one after the other while movements may be appended: ledgers[i]
      is the ledger the i-th read finds. */
  ghost predicate Follows(w: Text, asked: int, ledgers: seq<seq<Entry>>, pages: seq<LedgerPage>) {
    && |pages| == |ledgers| && |pages| > 0
    && (forall i :: 0 <= i < |ledgers| ==> Stored(ledgers[i]))
    && PageAt(ledgers[0], w, [], asked) == Ok(pages[0])
    && (forall i :: 1 <= i < |pages| ==> FollowsOn(w, asked, ledgers, pages, i))
  }

  /** The i-th page was asked for with the cursor of the one before it, from a
      ledger that may have grown since. */
  ghost predicate FollowsOn(w: Text, asked: int, ledgers: seq<seq<Entry>>, pages: seq<LedgerPage>, i: nat)
    requires 1 <= i < |pages| && |pages| == |ledgers|
  {
    && ledgers[i - 1] <= ledgers[i]
    && pages[i - 1].next.Some? && PageAt(ledgers[i], w, pages[i - 1].next.value, asked) == Ok(pages[i])
  }

  function Read(pages: seq<LedgerPage>): seq<Entry> {
    if pages == [] then [] else Read(pages[..|pages| - 1]) + pages[|pages| - 1].entries
  }

  lemma StandsStill(l: seq<Entry>, longer: seq<Entry>, w: Text, cursor: Text, i: nat)
    requires l <= longer && StandsAt(l, w, cursor, i)
    ensures StandsAt(longer, w, cursor, i)
  {
  }

  /** What has been read is, at every point, a prefix of the ledger: no gap and no
      repeat, every page but the last full, and the cursor stands at its end. */
  lemma {:induction false} ReadsAPrefix(w: Text, asked: int, ledgers: seq<seq<Entry>>, pages: seq<LedgerPage>)
    requires IsWalletText(w) && Follows(w, asked, ledgers, pages)
    ensures var l := ledgers[|ledgers| - 1];
            var limit := LimitOf(asked);
            && Read(pages) <= l
            && (pages[|pages| - 1].next.Some? ==>
                  |Read(pages)| == |pages| * limit && StandsAt(l, w, pages[|pages| - 1].next.value, |Read(pages)|))
            && (pages[|pages| - 1].next.None? ==> Read(pages) == l && |pages| == |l| / limit + 1)
  {
    hide PageAt, StandsAt, Stored, LimitOf;
    var n := |pages|;
    var l := ledgers[n - 1];
    if n == 1 {
      StartsAtTheBeginning(l, w);
      assert pages[..0] == [];
      ReadsOneMore(w, asked, l, pages, [], 0);
    } else {
      FollowedBefore(w, asked, ledgers, pages);
      ReadsAPrefix(w, asked, ledgers[..n - 1], pages[..n - 1]);
      assert FollowsOn(w, asked, ledgers, pages, n - 1) && pages[n - 2] == pages[..n - 1][n - 2];
      var i, cursor := |Read(pages[..n - 1])|, pages[n - 2].next.value;
      StandsStill(ledgers[n - 2], l, w, cursor, i);
      ReadsOneMore(w, asked, l, pages, cursor, i);
    }
  }

  lemma ReadsOneMore(w: Text, asked: int, l: seq<Entry>, pages: seq<LedgerPage>, cursor: Text, i: nat)
    requires IsWalletText(w) && Stored(l) && |pages| > 0 && StandsAt(l, w, cursor, i)
    requires var n := |pages| - 1; PageAt(l, w, cursor, asked) == Ok(pages[n]) && Read(pages[..n]) <= l && |Read(pages[..n])| == i && i == n * LimitOf(asked)
    ensures var limit := LimitOf(asked);
            var last := pages[|pages| - 1];
            && Read(pages) <= l
            && (last.next.Some? ==> |Read(pages)| == |pages| * limit && StandsAt(l, w, last.next.value, |Read(pages)|))
            && (last.next.None? ==> Read(pages) == l && |pages| == |l| / limit + 1)
  {
    hide PageAt, StandsAt, Stored, LimitOf;
    var n, limit := |pages| - 1, LimitOf(asked);
    PageContinues(l, w, cursor, i, asked);
    OneMorePage(n, i, |l|, limit);
    var j := if i + limit < |l| then i + limit else |l|;
    assert Read(pages[..n]) == l[..i];
    assert l[..i] + l[i..j] == l[..j];
  }

  lemma FollowedBefore(w: Text, asked: int, ledgers: seq<seq<Entry>>, pages: seq<LedgerPage>)
    requires Follows(w, asked, ledgers, pages) && |pages| > 1
    ensures Follows(w, asked, ledgers[..|pages| - 1], pages[..|pages| - 1])
  {
    hide Stored, PageAt;
    var before, earlier := ledgers[..|pages| - 1], pages[..|pages| - 1];
    forall i | 1 <= i < |earlier|
      ensures FollowsOn(w, asked, before, earlier, i)
    {
      assert FollowsOn(w, asked, ledgers, pages, i);
    }
  }

  lemma StartsAtTheBeginning(l: seq<Entry>, w: Text)
    ensures StandsAt(l, w, [], 0)
  {
  }

  lemma OneMorePage(pages: nat, i: nat, n: nat, limit: nat)
    requires limit > 0 && i == pages * limit && i <= n
    ensures (pages + 1) * limit == i + limit
    ensures i + limit > n ==> n / limit == pages
  {
    if i + limit > n {
      assert n == pages * limit + (n - i) && 0 <= n - i < limit;
      DivOf(n, pages, limit);
    }
  }

  lemma DivOf(n: nat, q: nat, d: nat)
    requires d > 0 && q * d <= n < q * d + d
    ensures n / d == q
  {
    var k := n / d - q;
    assert n == n / d * d + n % d;
    assert k * d == n / d * d - q * d;
    Multiples(k, d);
  }

  lemma Multiples(k: int, d: int)
    requires d > 0
    ensures k >= 1 ==> k * d >= d
    ensures k <= -1 ==> k * d <= -d
  {
    if k >= 1 {
      MulMono(1, k, d);
    } else if k <= -1 {
      MulMono(1, -k, d);
      assert -k * d == -(k * d);
    }
  }

  lemma MulMono(a: int, b: int, d: int)
    requires a <= b && d >= 0
    ensures a * d <= b * d
  {
  }

  // ----- Reconciliation ------------------------------------------------------

  /** An entry as it is stored: under a wallet, in a currency. */
  datatype Filed = Filed(wallet: WalletId, currency: Currency, entry: Entry)

  datatype Finding =
    | Agrees
    | AnotherWallets(tx: TransactionId)
    | TwoEntries(tx: TransactionId)
    | WrongCurrency(tx: TransactionId)
    | Overflow
    | Differs(expected: int, actual: int)

  const MIN_MINOR: int := -0x8000_0000_0000_0000

  predicate Representable(units: int) {
    MIN_MINOR <= units <= MAX_MINOR
  }

  function Entries(s: seq<Filed>): (l: seq<Entry>)
    ensures |l| == |s| && forall i :: 0 <= i < |s| ==> l[i] == s[i].entry
  {
    seq(|s|, i requires 0 <= i < |s| => s[i].entry)
  }

  /** Every entry is this wallet's, and no transaction has two. */
  predicate Clean(s: seq<Filed>, w: WalletId) {
    && (forall i :: 0 <= i < |s| ==> s[i].wallet == w)
    && (forall i, j :: 0 <= i < j < |s| ==> s[i].entry.tx != s[j].entry.tx)
  }

  /** Every entry is in the wallet's currency, and no running total overflows. */
  predicate Summable(s: seq<Filed>, c: Currency) {
    && (forall i :: 0 <= i < |s| ==> s[i].currency == c)
    && (forall i :: 0 <= i <= |s| ==> Representable(Sum(Entries(s[..i]))))
  }

  /** wagering.Reconcile: whose the entries are and one per transaction, then their
      currency and their sum, then the sum against the balance. */
  method Reconcile(w: WalletId, wallet: Wallet, entries: seq<Filed>) returns (finding: Finding)
    ensures finding.AnotherWallets? || finding.TwoEntries? <==> !Clean(entries, w)
    ensures finding.AnotherWallets? ==> exists k :: 0 <= k < |entries| && entries[k].wallet != w && entries[k].entry.tx == finding.tx
    ensures finding.TwoEntries? ==>
              exists j, k :: 0 <= j < k < |entries| && entries[j].entry.tx == entries[k].entry.tx == finding.tx
    ensures finding.WrongCurrency? || finding.Overflow? <==> Clean(entries, w) && !Summable(entries, wallet.currency)
    ensures finding.WrongCurrency? ==>
              exists k :: 0 <= k < |entries| && entries[k].currency != wallet.currency && entries[k].entry.tx == finding.tx
    ensures Clean(entries, w) && Summable(entries, wallet.currency) ==>
              finding == if Sum(Entries(entries)) == wallet.balance then Agrees
                         else Differs(Sum(Entries(entries)), wallet.balance)
  {
    hide Sum, Entries;
    var seen: set<TransactionId> := {};
    for i := 0 to |entries|
      invariant Clean(entries[..i], w)
      invariant seen == set k | 0 <= k < i :: entries[k].entry.tx
    {
      if entries[i].wallet != w {
        return AnotherWallets(entries[i].entry.tx);
      }
      if entries[i].entry.tx in seen {
        var j :| 0 <= j < i && entries[j].entry.tx == entries[i].entry.tx;
        return TwoEntries(entries[i].entry.tx);
      }
      seen := seen + {entries[i].entry.tx};
    }
    assert entries[..|entries|] == entries;
    var total := 0;
    NothingSums(entries);
    for i := 0 to |entries|
      invariant Clean(entries, w)
      invariant total == Sum(Entries(entries[..i]))
      invariant forall k :: 0 <= k < i ==> entries[k].currency == wallet.currency
      invariant forall k :: 0 <= k <= i ==> Representable(Sum(Entries(entries[..k])))
    {
      if entries[i].currency != wallet.currency {
        return WrongCurrency(entries[i].entry.tx);
      }
      SumAppends(entries, i);
      total := total + SignedOf(entries[i].entry);
      if !Representable(total) {
        assert !Representable(Sum(Entries(entries[..i + 1])));
        return Overflow;
      }
    }
    finding := if total == wallet.balance then Agrees else Differs(total, wallet.balance);
  }

  lemma NothingSums(s: seq<Filed>)
    ensures Sum(Entries(s[..0])) == 0
  {
    assert Entries(s[..0]) == [];
  }

  lemma SumAppends(s: seq<Filed>, i: nat)
    requires i < |s|
    ensures Sum(Entries(s[..i + 1])) == Sum(Entries(s[..i])) + SignedOf(s[i].entry)
  {
    var l := Entries(s[..i + 1]);
    assert l[..i] == Entries(s[..i]);
  }

  /** A wallet's ledger as its rows file it. */
  function FiledOf(db: DB, w: WalletId): (s: seq<Filed>)
    requires forall i :: 0 <= i < |LedgerOf(db, w)| ==> LedgerOf(db, w)[i].tx in db.rows
    ensures |s| == |LedgerOf(db, w)|
  {
    seq(|LedgerOf(db, w)|, i requires 0 <= i < |LedgerOf(db, w)| =>
      var e := LedgerOf(db, w)[i];
      Filed(db.rows[e.tx].op.wallet, db.rows[e.tx].op.currency, e))
  }

  lemma ChainIsSummable(db: DB, w: WalletId)
    requires LedgerFor(db, w) && w in db.wallets
    ensures forall i :: 0 <= i < |LedgerOf(db, w)| ==> LedgerOf(db, w)[i].tx in db.rows
    ensures Clean(FiledOf(db, w), w) && Summable(FiledOf(db, w), db.wallets[w].currency)
    ensures Entries(FiledOf(db, w)) == LedgerOf(db, w)
  {
    var l := LedgerOf(db, w);
    assert forall i :: 0 <= i < |l| ==> OnWallet(db, l[i].tx, w);
    var s := FiledOf(db, w);
    assert Entries(s) == l;
    forall i | 0 <= i < |s|
      ensures s[i].wallet == w && s[i].currency == db.wallets[w].currency
    {
      assert OnWallet(db, l[i].tx, w) && InCurrency(db, l[i].tx, w);
    }
    forall i | 0 <= i <= |s|
      ensures Representable(Sum(Entries(s[..i])))
    {
      assert Entries(s[..i]) == l[..i];
      assert Chain(l[..i]);
      ChainSums(l[..i]);
    }
  }

  /** Reconcile reports every wallet the doors wrote as consistent. */
  method ReconcileWallet(db: DB, w: WalletId) returns (finding: Option<Finding>)
    requires Ledgers(db)
    ensures finding == if w in db.wallets then Some(Agrees) else None
  {
    hide Chain, OneEntryEach, WalletMatches, Sum;
    if w !in db.wallets {
      return None;
    }
    assert LedgerFor(db, w);
    ChainIsSummable(db, w);
    BalanceIsTheLedger(db, w);
    var f := Reconcile(w, db.wallets[w], FiledOf(db, w));
    return Some(f);
  }
}
