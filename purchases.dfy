/**
 * The purchase table (internal/database/purchase.go).
 *
 * The table is held in memory as a sequence of rows whose ids are the serial
 * numbers 1, 2, 3, … the database hands out; rows are never deleted. A failure
 * of the database driver is modelled on inserts only, as an input `fault`.
 * A partial update (`map[string]interface{}` in the source) is a sequence of
 * typed column assignments applied in order.
 */
module Purchases {
  import opened Wrappers

  datatype InvoiceType = Crypto | Yookasa | Telegram

  datatype PurchaseStatus = New | Pending | Paid | Cancel

  /** The text stored in the `invoice_type` column. */
  function InvoiceTypeName(t: InvoiceType): string
  {
    match t
    case Crypto => "crypto"
    case Yookasa => "yookasa"
    case Telegram => "telegram"
  }

  function InvoiceTypeFromName(s: string): Option<InvoiceType>
  {
    if s == "crypto" then Some(Crypto)
    else if s == "yookasa" then Some(Yookasa)
    else if s == "telegram" then Some(Telegram)
    else None
  }

  /** The text stored in the `status` column. */
  function StatusName(s: PurchaseStatus): string
  {
    match s
    case New => "new"
    case Pending => "pending"
    case Paid => "paid"
    case Cancel => "cancel"
  }

  function StatusFromName(s: string): Option<PurchaseStatus>
  {
    if s == "new" then Some(New)
    else if s == "pending" then Some(Pending)
    else if s == "paid" then Some(Paid)
    else if s == "cancel" then Some(Cancel)
    else None
  }

  /**
   * The invoice types have exactly their three names and the statuses their four:
   * every value has its own name, and only those names denote a value.
   */
  lemma EnumerationNames(t: InvoiceType, s: PurchaseStatus, text: string)
    ensures InvoiceTypeFromName(InvoiceTypeName(t)) == Some(t)
    ensures StatusFromName(StatusName(s)) == Some(s)
    ensures InvoiceTypeFromName(text).Some? <==> text in {"crypto", "yookasa", "telegram"}
    ensures StatusFromName(text).Some? <==> text in {"new", "pending", "paid", "cancel"}
    ensures InvoiceTypeFromName(text).Some? ==> InvoiceTypeName(InvoiceTypeFromName(text).value) == text
    ensures StatusFromName(text).Some? ==> StatusName(StatusFromName(text).value) == text
  {
  }

  datatype Purchase = Purchase(
    id: int,
    amount: int,
    customerId: int,
    createdAt: int,
    month: int,
    paidAt: Option<int>,
    currency: string,
    expireAt: Option<int>,
    status: PurchaseStatus,
    invoiceType: InvoiceType,
    cryptoInvoiceId: Option<int>,
    cryptoInvoiceUrl: Option<string>,
    yookasaUrl: Option<string>,
    yookasaId: Option<string>)

  /** The columns a partial update may assign. */
  datatype Column = StatusColumn | PaidAtColumn | CryptoInvoiceIdColumn | CryptoInvoiceUrlColumn | YookasaUrlColumn | YookasaIdColumn

  datatype Update =
    | SetStatus(status: PurchaseStatus)
    | SetPaidAt(paidAt: int)
    | SetCryptoInvoiceId(invoiceId: Option<int>)
    | SetCryptoInvoiceUrl(url: string)
    | SetYookasaUrl(url: string)
    | SetYookasaId(paymentId: string)

  function ColumnOf(u: Update): Column
  {
    match u
    case SetStatus(_) => StatusColumn
    case SetPaidAt(_) => PaidAtColumn
    case SetCryptoInvoiceId(_) => CryptoInvoiceIdColumn
    case SetCryptoInvoiceUrl(_) => CryptoInvoiceUrlColumn
    case SetYookasaUrl(_) => YookasaUrlColumn
    case SetYookasaId(_) => YookasaIdColumn
  }

  function Apply(p: Purchase, u: Update): Purchase
  {
    match u
    case SetStatus(s) => p.(status := s)
    case SetPaidAt(t) => p.(paidAt := Some(t))
    case SetCryptoInvoiceId(i) => p.(cryptoInvoiceId := i)
    case SetCryptoInvoiceUrl(url) => p.(cryptoInvoiceUrl := Some(url))
    case SetYookasaUrl(url) => p.(yookasaUrl := Some(url))
    case SetYookasaId(i) => p.(yookasaId := Some(i))
  }

  /** The row after all assignments, the later ones last. */
  function ApplyAll(p: Purchase, us: seq<Update>): Purchase
  {
    if us == [] then p else Apply(ApplyAll(p, us[..|us| - 1]), us[|us| - 1])
  }

  /** The two rows hold the same value in column c. */
  predicate SameColumn(p: Purchase, q: Purchase, c: Column)
  {
    match c
    case StatusColumn => p.status == q.status
    case PaidAtColumn => p.paidAt == q.paidAt
    case CryptoInvoiceIdColumn => p.cryptoInvoiceId == q.cryptoInvoiceId
    case CryptoInvoiceUrlColumn => p.cryptoInvoiceUrl == q.cryptoInvoiceUrl
    case YookasaUrlColumn => p.yookasaUrl == q.yookasaUrl
    case YookasaIdColumn => p.yookasaId == q.yookasaId
  }

  /** The columns no update can assign. */
  predicate SameFixedColumns(p: Purchase, q: Purchase)
  {
    && p.id == q.id && p.amount == q.amount && p.customerId == q.customerId
    && p.createdAt == q.createdAt && p.month == q.month && p.currency == q.currency
    && p.expireAt == q.expireAt && p.invoiceType == q.invoiceType
  }

  /** A partial update changes only the columns it names. */
  lemma {:induction false} UpdatesChangeOnlyNamedColumns(p: Purchase, us: seq<Update>, c: Column)
    requires forall k :: 0 <= k < |us| ==> ColumnOf(us[k]) != c
    ensures SameColumn(p, ApplyAll(p, us), c)
  {
    if us != [] {
      UpdatesChangeOnlyNamedColumns(p, us[..|us| - 1], c);
    }
  }

  /** No partial update changes the id, amount, owner, duration, currency, expiry or invoice type. */
  lemma {:induction false} UpdatesKeepFixedColumns(p: Purchase, us: seq<Update>)
    ensures SameFixedColumns(p, ApplyAll(p, us))
  {
    if us != [] {
      UpdatesKeepFixedColumns(p, us[..|us| - 1]);
    }
  }

  /** The last assignment of the status column decides the status. */
  lemma {:induction false} LastStatusWins(p: Purchase, us: seq<Update>, k: int)
    requires 0 <= k < |us| && us[k].SetStatus?
    requires forall j :: k < j < |us| ==> !us[j].SetStatus?
    ensures ApplyAll(p, us).status == us[k].status
  {
    if k < |us| - 1 {
      LastStatusWins(p, us[..|us| - 1], k);
    }
  }

  /** Ids are the serial numbers 1, 2, 3, … in insertion order. */
  predicate WellKeyed(rows: seq<Purchase>)
  {
    forall i :: 0 <= i < |rows| ==> rows[i].id == i + 1
  }

  /** The row with the given id, if any. */
  function Find(rows: seq<Purchase>, id: int): Option<Purchase>
  {
    if 1 <= id <= |rows| then Some(rows[id - 1]) else None
  }

  /** Find yields exactly the row carrying the id, and absence when no row carries it. */
  lemma FindMeansRowWithId(rows: seq<Purchase>, id: int, p: Purchase)
    requires WellKeyed(rows)
    ensures Find(rows, id) == Some(p) <==> p in rows && p.id == id
    ensures Find(rows, id).None? <==> forall q :: q in rows ==> q.id != id
  {
    if p in rows && p.id == id {
      var i :| 0 <= i < |rows| && rows[i] == p;
    }
    if Find(rows, id).None? {
      forall q | q in rows
        ensures q.id != id
      {
        var i :| 0 <= i < |rows| && rows[i] == q;
      }
    }
  }

  /** The rows of the given invoice type and status, in table order. */
  function Select(rows: seq<Purchase>, t: InvoiceType, s: PurchaseStatus): seq<Purchase>
  {
    if rows == [] then []
    else
      var last := rows[|rows| - 1];
      Select(rows[..|rows| - 1], t, s) + (if last.invoiceType == t && last.status == s then [last] else [])
  }

  /** Select returns exactly the rows whose type and status both match, so it is empty when none match. */
  lemma {:induction false} SelectExact(rows: seq<Purchase>, t: InvoiceType, s: PurchaseStatus)
    ensures forall p :: p in Select(rows, t, s) <==> p in rows && p.invoiceType == t && p.status == s
    ensures Select(rows, t, s) == [] <==> forall p :: p in rows ==> !(p.invoiceType == t && p.status == s)
  {
    if rows != [] {
      SelectExact(rows[..|rows| - 1], t, s);
      assert rows == rows[..|rows| - 1] + [rows[|rows| - 1]];
    }
  }

  /** The table after UpdateFields(id, us). */
  function Updated(rows: seq<Purchase>, id: int, us: seq<Update>): seq<Purchase>
  {
    if us == [] || Find(rows, id).None? then rows else rows[id - 1 := ApplyAll(rows[id - 1], us)]
  }

  /** UpdateFields touches only the row with that id, keeps ids serial, and an empty update or a missing id changes nothing. */
  lemma UpdatedFrame(rows: seq<Purchase>, id: int, us: seq<Update>)
    requires WellKeyed(rows)
    ensures WellKeyed(Updated(rows, id, us))
    ensures |Updated(rows, id, us)| == |rows|
    ensures forall i :: 0 <= i < |rows| && i != id - 1 ==> Updated(rows, id, us)[i] == rows[i]
    ensures us == [] ==> Updated(rows, id, us) == rows
    ensures Find(rows, id).None? ==> Updated(rows, id, us) == rows
    ensures us != [] && Find(rows, id).Some? ==> Find(Updated(rows, id, us), id) == Some(ApplyAll(rows[id - 1], us))
  {
    if us != [] && Find(rows, id).Some? {
      UpdatesKeepFixedColumns(rows[id - 1], us);
    }
  }

  /** The row MarkAsPaid leaves behind. */
  function MarkedPaid(p: Purchase, now: int): Purchase
  {
    ApplyAll(p, [SetStatus(Paid), SetPaidAt(now)])
  }

  /** MarkAsPaid sets `paid` and the payment time whatever the previous status, so repeating it still leaves the row paid. */
  lemma MarkedPaidRow(p: Purchase, now: int, later: int)
    ensures MarkedPaid(p, now).status == Paid && MarkedPaid(p, now).paidAt == Some(now)
    ensures MarkedPaid(p, now) == p.(status := Paid, paidAt := Some(now))
    ensures MarkedPaid(MarkedPaid(p, now), later).status == Paid
    ensures MarkedPaid(MarkedPaid(p, now), later) == MarkedPaid(p, later)
  {
    ApplyPair(p, SetStatus(Paid), SetPaidAt(now));
    ApplyPair(MarkedPaid(p, now), SetStatus(Paid), SetPaidAt(later));
    ApplyPair(p, SetStatus(Paid), SetPaidAt(later));
  }

  lemma ApplyPair(p: Purchase, u: Update, v: Update)
    ensures ApplyAll(p, [u, v]) == Apply(Apply(p, u), v)
  {
    assert [u, v][..1] == [u];
    assert [u][..0] == [];
    assert ApplyAll(p, [u]) == Apply(ApplyAll(p, []), u);
    assert ApplyAll(p, [u, v]) == Apply(ApplyAll(p, [u]), v);
  }

  /** The row an insert creates: the id and creation time come from the database, `paid_at` is not inserted. */
  function Inserted(p: Purchase, id: int, now: int): Purchase
  {
    p.(id := id, createdAt := now, paidAt := None)
  }

  /** Updating a row just appended: the earlier rows are kept, and the new last row is the appended one updated. */
  lemma UpdatedLastRow(rows: seq<Purchase>, row: Purchase, us: seq<Update>)
    ensures var u := Updated(rows + [row], |rows| + 1, us);
      |u| == |rows| + 1 && u[..|rows|] == rows && u[|rows|] == ApplyAll(row, us)
  {
    var all := rows + [row];
    assert all[..|rows|] == rows;
    if us != [] {
      var u := Updated(all, |rows| + 1, us);
      assert u == all[|rows| := ApplyAll(row, us)];
      assert u[..|rows|] == all[..|rows|];
    }
  }

  /** The id Create hands out is fresh, and FindById of it yields the inserted column values. */
  lemma CreateThenFind(rows: seq<Purchase>, p: Purchase, now: int)
    requires WellKeyed(rows)
    ensures Find(rows, |rows| + 1).None?
    ensures WellKeyed(rows + [Inserted(p, |rows| + 1, now)])
    ensures var q := Find(rows + [Inserted(p, |rows| + 1, now)], |rows| + 1);
      && q.Some? && q.value.id == |rows| + 1
      && q.value.amount == p.amount && q.value.customerId == p.customerId && q.value.month == p.month
      && q.value.currency == p.currency && q.value.expireAt == p.expireAt && q.value.status == p.status
      && q.value.invoiceType == p.invoiceType && q.value.cryptoInvoiceId == p.cryptoInvoiceId
      && q.value.cryptoInvoiceUrl == p.cryptoInvoiceUrl && q.value.yookasaUrl == p.yookasaUrl
      && q.value.yookasaId == p.yookasaId && q.value.paidAt.None?
    ensures forall id :: id != |rows| + 1 ==> Find(rows + [Inserted(p, |rows| + 1, now)], id) == Find(rows, id)
  {
  }

  class PurchaseRepository {
    var rows: seq<Purchase>

    ghost predicate Valid()
      reads this
    {
      WellKeyed(rows)
    }

    constructor ()
      ensures Valid() && rows == []
    {
      rows := [];
    }

    /** Inserts a row built from `p`; `fault` stands for a failing database. */
    method Create(p: Purchase, now: int, fault: bool) returns (id: int, err: bool)
      requires Valid()
      modifies this
      ensures Valid()
      ensures err == fault
      ensures err ==> id == 0 && rows == old(rows)
      ensures !err ==> id == |old(rows)| + 1 && rows == old(rows) + [Inserted(p, id, now)]
    {
      if fault {
        return 0, true;
      }
      id := |rows| + 1;
      rows := rows + [Inserted(p, id, now)];
      err := false;
    }

    method FindById(id: int) returns (r: Option<Purchase>)
      requires Valid()
      ensures r == Find(rows, id)
      ensures r.Some? ==> r.value in rows && r.value.id == id
      ensures r.None? ==> forall q :: q in rows ==> q.id != id
    {
      if 1 <= id <= |rows| {
        r := Some(rows[id - 1]);
      } else {
        r := None;
        forall q | q in rows
          ensures q.id != id
        {
          FindMeansRowWithId(rows, id, q);
        }
      }
    }

    method FindByInvoiceTypeAndStatus(t: InvoiceType, s: PurchaseStatus) returns (ps: seq<Purchase>)
      ensures ps == Select(rows, t, s)
    {
      ps := [];
      var i := 0;
      while i < |rows|
        invariant 0 <= i <= |rows|
        invariant ps == Select(rows[..i], t, s)
      {
        assert rows[..i + 1][..i] == rows[..i];
        if rows[i].invoiceType == t && rows[i].status == s {
          ps := ps + [rows[i]];
        }
        i := i + 1;
      }
      assert rows[..i] == rows;
    }

    /** Assigns the given columns of row `id`; fails when no row has that id (no row affected). */
    method UpdateFields(id: int, us: seq<Update>) returns (err: bool)
      requires Valid()
      modifies this
      ensures Valid()
      ensures err <==> us != [] && Find(old(rows), id).None?
      ensures rows == Updated(old(rows), id, us)
    {
      UpdatedFrame(rows, id, us);
      if us == [] {
        return false;
      }
      if !(1 <= id <= |rows|) {
        return true;
      }
      var row := rows[id - 1];
      var i := 0;
      while i < |us|
        invariant 0 <= i <= |us|
        invariant row == ApplyAll(rows[id - 1], us[..i])
      {
        assert us[..i + 1][..i] == us[..i];
        row := Apply(row, us[i]);
        i := i + 1;
      }
      assert us[..i] == us;
      rows := rows[id - 1 := row];
      err := false;
    }

    method MarkAsPaid(id: int, now: int) returns (err: bool)
      requires Valid()
      modifies this
      ensures Valid()
      ensures err <==> Find(old(rows), id).None?
      ensures !err ==> rows == old(rows)[id - 1 := MarkedPaid(old(rows)[id - 1], now)]
      ensures err ==> rows == old(rows)
    {
      err := UpdateFields(id, [SetStatus(Paid), SetPaidAt(now)]);
    }
  }
}
