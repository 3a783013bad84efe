/**
 * The `contacts` table as the route handlers see it: the record a submission
 * writes, the rows the store returns, and the listing query
 * `select('*').order('created_at', { ascending: false }).limit(10)` stated over
 * an abstract sequence of stored rows.
 */
module ContactStore {
  import opened Wrappers

  /**
   * The `contactData` object handed to `insert`. `createdAt` is the ISO
   * timestamp of the request, modelled as a clock reading (ISO strings of one
   * format sort as their instants do).
   */
  datatype ContactData = ContactData(
    name: string,
    email: string,
    company: string,
    whatsapp: string,
    service: string,
    message: string,
    ipAddress: Option<string>,
    userAgent: Option<string>,
    createdAt: int)

  /** A row of the table: the stored record and the id the store gave it. */
  datatype StoredRow = StoredRow(id: string, data: ContactData)

  function CreatedAt(r: StoredRow): int {
    r.data.createdAt
  }

  /** Newest first: `created_at` never increases along the sequence. */
  predicate NewestFirst(rows: seq<StoredRow>) {
    forall i, j :: 0 <= i < j < |rows| ==> CreatedAt(rows[i]) >= CreatedAt(rows[j])
  }

  /** Puts `r` in front of the first row that is not newer than it. */
  function InsertByDate(r: StoredRow, rows: seq<StoredRow>): seq<StoredRow> {
    if rows == [] || CreatedAt(r) >= CreatedAt(rows[0]) then [r] + rows
    else [rows[0]] + InsertByDate(r, rows[1..])
  }

  /** `order('created_at', { ascending: false })`, by insertion. */
  function OrderByNewest(rows: seq<StoredRow>): seq<StoredRow> {
    if rows == [] then [] else InsertByDate(rows[0], OrderByNewest(rows[1..]))
  }

  /** The listing query: the table ordered newest first, cut to `limit` rows. */
  function RecentContacts(rows: seq<StoredRow>, limit: nat): seq<StoredRow> {
    var ordered := OrderByNewest(rows);
    if |ordered| <= limit then ordered else ordered[..limit]
  }

  /** The number of rows `GET /api/contact` asks for. */
  const ListLimit: nat := 10

  lemma {:induction false} InsertByDateKeepsRows(r: StoredRow, rows: seq<StoredRow>)
    ensures multiset(InsertByDate(r, rows)) == multiset{r} + multiset(rows)
    ensures |InsertByDate(r, rows)| == |rows| + 1
  {
    if rows != [] && CreatedAt(r) < CreatedAt(rows[0]) {
      InsertByDateKeepsRows(r, rows[1..]);
      assert rows == [rows[0]] + rows[1..];
    }
  }

  lemma {:induction false} InsertByDateOrdered(r: StoredRow, rows: seq<StoredRow>)
    requires NewestFirst(rows)
    ensures NewestFirst(InsertByDate(r, rows))
    ensures InsertByDate(r, rows) != []
    ensures InsertByDate(r, rows)[0] == r || (rows != [] && InsertByDate(r, rows)[0] == rows[0])
  {
    if rows != [] && CreatedAt(r) < CreatedAt(rows[0]) {
      var tail := rows[1..];
      assert NewestFirst(tail) by {
        forall i, j | 0 <= i < j < |tail| ensures CreatedAt(tail[i]) >= CreatedAt(tail[j]) {
          assert tail[i] == rows[i + 1] && tail[j] == rows[j + 1];
        }
      }
      InsertByDateOrdered(r, tail);
      var ins := InsertByDate(r, tail);
      var res := [rows[0]] + ins;
      assert CreatedAt(rows[0]) >= CreatedAt(ins[0]) by {
        if ins[0] != r {
          assert ins[0] == tail[0] == rows[1];
        }
      }
      InsertByDateKeepsRows(r, tail);
      forall i, j | 0 <= i < j < |res| ensures CreatedAt(res[i]) >= CreatedAt(res[j]) {
        if i == 0 {
          assert res[j] == ins[j - 1];
          if j > 1 {
            assert CreatedAt(ins[0]) >= CreatedAt(ins[j - 1]);
          }
        } else {
          assert res[i] == ins[i - 1] && res[j] == ins[j - 1];
        }
      }
    } else {
      var res := [r] + rows;
      forall i, j | 0 <= i < j < |res| ensures CreatedAt(res[i]) >= CreatedAt(res[j]) {
        if i == 0 {
          assert res[j] == rows[j - 1];
          if j > 1 {
            assert CreatedAt(rows[0]) >= CreatedAt(rows[j - 1]);
          }
        } else {
          assert res[i] == rows[i - 1] && res[j] == rows[j - 1];
        }
      }
    }
  }

  /** The ordering returns the same rows, newest first. */
  lemma {:induction false} OrderByNewestCorrect(rows: seq<StoredRow>)
    ensures NewestFirst(OrderByNewest(rows))
    ensures multiset(OrderByNewest(rows)) == multiset(rows)
    ensures |OrderByNewest(rows)| == |rows|
  {
    if rows != [] {
      OrderByNewestCorrect(rows[1..]);
      InsertByDateOrdered(rows[0], OrderByNewest(rows[1..]));
      InsertByDateKeepsRows(rows[0], OrderByNewest(rows[1..]));
      assert rows == [rows[0]] + rows[1..];
    }
  }

  /** In a newest-first sequence, every row after position `k` is no newer than any row before it. */
  lemma SplitNewestFirst(s: seq<StoredRow>, k: nat)
    requires NewestFirst(s) && k <= |s|
    ensures forall x, y :: x in s[k..] && y in s[..k] ==> CreatedAt(x) <= CreatedAt(y)
  {
    forall x, y | x in s[k..] && y in s[..k] ensures CreatedAt(x) <= CreatedAt(y) {
      var a :| 0 <= a < |s| - k && s[k..][a] == x;
      var b :| 0 <= b < k && s[..k][b] == y;
      assert s[b] == y && s[k + a] == x;
    }
  }

  /** A prefix of a newest-first sequence is newest first. */
  lemma PrefixNewestFirst(s: seq<StoredRow>, k: nat)
    requires NewestFirst(s) && k <= |s|
    ensures NewestFirst(s[..k])
  {
    var p := s[..k];
    forall i, j | 0 <= i < j < |p| ensures CreatedAt(p[i]) >= CreatedAt(p[j]) {
      assert p[i] == s[i] && p[j] == s[j];
    }
  }

  /** The rows of a sequence are those of its prefix plus those of the matching suffix. */
  lemma SplitRows(s: seq<StoredRow>, k: nat)
    requires k <= |s|
    ensures multiset(s) - multiset(s[..k]) == multiset(s[k..])
    ensures multiset(s[..k]) <= multiset(s)
  {
    assert s == s[..k] + s[k..];
  }

  /**
   * The listing returns `min(limit, |rows|)` rows of the table, newest first,
   * and no row it leaves out is newer than any row it returns.
   */
  lemma RecentContactsAreNewest(rows: seq<StoredRow>, limit: nat)
    ensures var page := RecentContacts(rows, limit);
      |page| == (if |rows| <= limit then |rows| else limit) &&
      NewestFirst(page) &&
      multiset(page) <= multiset(rows) &&
      forall x, y :: x in multiset(rows) - multiset(page) && y in page ==> CreatedAt(x) <= CreatedAt(y)
  {
    var ordered := OrderByNewest(rows);
    OrderByNewestCorrect(rows);
    var page := RecentContacts(rows, limit);
    var k := |page|;
    assert page == ordered[..k];
    PrefixNewestFirst(ordered, k);
    SplitRows(ordered, k);
    SplitNewestFirst(ordered, k);
    forall x | x in multiset(rows) - multiset(page) ensures x in ordered[k..] {
      assert x in multiset(ordered[k..]);
    }
  }

  /** The 10-row listing of `GET /api/contact`. */
  lemma ListingAtMostTen(rows: seq<StoredRow>)
    ensures |RecentContacts(rows, ListLimit)| <= 10
    ensures |rows| >= 10 ==> |RecentContacts(rows, ListLimit)| == 10
  {
    RecentContactsAreNewest(rows, ListLimit);
  }
}
