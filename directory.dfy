/**
 * The vendor directory (the home page): summary counts over the fetched
 * vendors, the text of each table cell, the status badge labels, and the
 * choice between the loading message, the empty message and the table.
 */
module Directory {
  import opened Options
  import opened JsString

  datatype Status = Pending | Approved | Rejected

  /** A vendor as the directory receives it from the list endpoint (the fields it shows). */
  datatype Vendor = Vendor(
    id: string,
    name: string,
    domain: string,
    subDomain: Option<string>,
    email: string,
    city: Option<string>,
    country: Option<string>,
    status: Status,
    rating: Option<int>)

  /** The em dash shown in place of a missing value. */
  const Dash: string := "—"
  const FilledStar: char := '★'
  const EmptyStar: char := '☆'
  const StarSlots: nat := 5
  const NotRated: string := "Not rated"

  // ---------------------------------------------------------------- counts

  /** `vendors.filter(v => v.status === s)`: the vendors with status `s`, in order. */
  function WithStatus(vs: seq<Vendor>, s: Status): (r: seq<Vendor>)
    ensures |r| <= |vs|
    ensures forall v :: v in r ==> v in vs && v.status == s
    ensures forall v :: v in vs && v.status == s ==> v in r
  {
    if vs == [] then []
    else if vs[0].status == s then [vs[0]] + WithStatus(vs[1..], s)
    else WithStatus(vs[1..], s)
  }

  /** Filtering distributes over concatenation. */
  lemma {:induction false} WithStatusAppend(a: seq<Vendor>, b: seq<Vendor>, s: Status)
    ensures WithStatus(a + b, s) == WithStatus(a, s) + WithStatus(b, s)
  {
    if a == [] {
      assert a + b == b;
    } else {
      assert (a + b)[1..] == a[1..] + b;
      WithStatusAppend(a[1..], b, s);
    }
  }

  /** Every vendor has exactly one status, so the three filters split the list. */
  lemma {:induction false} StatusPartition(vs: seq<Vendor>)
    ensures |WithStatus(vs, Pending)| + |WithStatus(vs, Approved)| + |WithStatus(vs, Rejected)| == |vs|
  {
    if vs != [] {
      StatusPartition(vs[1..]);
    }
  }

  /** A count is zero exactly when no vendor has that status. */
  lemma NoneWithStatus(vs: seq<Vendor>, s: Status)
    ensures |WithStatus(vs, s)| == 0 <==> forall v :: v in vs ==> v.status != s
  {
  }

  /** The three numbers on the stat cards. */
  datatype Summary = Summary(total: nat, approved: nat, pending: nat)

  /** Total, approved and pending counts of the fetched vendors. */
  function Summarize(vs: seq<Vendor>): (r: Summary)
    ensures r.total == |vs|
    ensures r.approved + r.pending <= r.total
    ensures r.approved + r.pending == r.total <==> forall v :: v in vs ==> v.status != Rejected
    ensures r.approved == 0 <==> forall v :: v in vs ==> v.status != Approved
    ensures r.pending == 0 <==> forall v :: v in vs ==> v.status != Pending
  {
    StatusPartition(vs);
    NoneWithStatus(vs, Rejected);
    NoneWithStatus(vs, Approved);
    NoneWithStatus(vs, Pending);
    Summary(|vs|, |WithStatus(vs, Approved)|, |WithStatus(vs, Pending)|)
  }

  /** A newly created vendor, listed first, adds one to the total and one to the count of its own status. */
  lemma SummaryAfterCreate(v: Vendor, vs: seq<Vendor>)
    ensures Summarize([v] + vs).total == Summarize(vs).total + 1
    ensures Summarize([v] + vs).approved == Summarize(vs).approved + (if v.status == Approved then 1 else 0)
    ensures Summarize([v] + vs).pending == Summarize(vs).pending + (if v.status == Pending then 1 else 0)
  {
  }

  // ---------------------------------------------------------------- cells

  /** The sub-domain line under the name: the sub-domain when it is non-empty, else an em dash. */
  function SubDomainCell(subDomain: Option<string>): (cell: string)
    ensures cell != ""
    ensures Truthy(subDomain) ==> cell == subDomain.value
    ensures !Truthy(subDomain) ==> cell == Dash
  {
    if Truthy(subDomain) then subDomain.value else Dash
  }

  /**
   * The location cell: city and country joined by a comma when both are
   * non-empty, the one that is non-empty otherwise, an em dash when neither is.
   */
  function Location(city: Option<string>, country: Option<string>): (cell: string)
    ensures cell != ""
    ensures !Truthy(city) && !Truthy(country) ==> cell == Dash
    ensures Truthy(city) && Truthy(country) ==> cell == city.value + ", " + country.value
    ensures Truthy(city) && !Truthy(country) ==> cell == city.value
    ensures !Truthy(city) && Truthy(country) ==> cell == country.value
  {
    if Truthy(city) || Truthy(country) then
      city.GetOr("") + (if Truthy(city) && Truthy(country) then ", " else "") + country.GetOr("")
    else
      Dash
  }

  /** The non-empty values among `parts`, in order. */
  function Present(parts: seq<Option<string>>): (r: seq<string>)
    ensures |r| <= |parts|
    ensures forall t :: t in r ==> t != ""
  {
    if parts == [] then []
    else if Truthy(parts[0]) then [parts[0].value] + Present(parts[1..])
    else Present(parts[1..])
  }

  /** `parts.join(sep)`. */
  function Join(parts: seq<string>, sep: string): string {
    if parts == [] then ""
    else if |parts| == 1 then parts[0]
    else parts[0] + sep + Join(parts[1..], sep)
  }

  /** The location is the comma-join of the non-empty parts, or an em dash when there are none. */
  lemma LocationIsJoin(city: Option<string>, country: Option<string>)
    ensures Location(city, country) ==
              var parts := Present([city, country]);
              if parts == [] then Dash else Join(parts, ", ")
  {
  }

  /** `'★'.repeat(r).padEnd(5, '☆')`: `r` filled stars, padded with empty ones up to five. */
  function Stars(r: nat): (cell: string)
    ensures |cell| == if r <= StarSlots then StarSlots else r
    ensures forall i :: 0 <= i < |cell| ==> cell[i] == if i < r then FilledStar else EmptyStar
  {
    PadEnd(Repeat(FilledStar, r), StarSlots, EmptyStar)
  }

  /** The stars cell shows exactly `r` filled stars, and empty ones only as padding. */
  lemma StarsCount(r: nat)
    ensures Occurrences(FilledStar, Stars(r)) == r
    ensures Occurrences(EmptyStar, Stars(r)) == if r <= StarSlots then StarSlots - r else 0
  {
    var filled := Repeat(FilledStar, r);
    OccurrencesRepeat(FilledStar, EmptyStar, r);
    if r < StarSlots {
      var pad := Repeat(EmptyStar, StarSlots - r);
      assert Stars(r) == filled + pad;
      OccurrencesAppend(FilledStar, filled, pad);
      OccurrencesAppend(EmptyStar, filled, pad);
      OccurrencesRepeat(EmptyStar, FilledStar, StarSlots - r);
    } else {
      assert Stars(r) == filled;
    }
  }

  /** A rating of three is shown as three filled and two empty stars. */
  lemma StarsOfThree()
    ensures Stars(3) == "★★★☆☆"
  {
  }

  /** `'★'.repeat(r)` throws on a negative count: only these ratings can be drawn. */
  predicate Drawable(rating: Option<int>) {
    rating.Some? ==> rating.value >= 0
  }

  /** The rating cell: the stars for a numeric rating, "Not rated" without one. */
  function RatingCell(rating: Option<int>): (cell: string)
    requires Drawable(rating)
    ensures rating.None? ==> cell == NotRated
    ensures rating.Some? ==> cell == Stars(rating.value)
  {
    if rating.Some? then Stars(rating.value) else NotRated
  }

  /** Reading a rating cell back: "Not rated" is no rating, otherwise the number of filled stars. */
  function ReadRating(cell: string): Option<int> {
    if cell == NotRated then None else Some(Occurrences(FilledStar, cell))
  }

  /** The rating cell loses nothing: the rating can be read back from it. */
  lemma RatingCellRoundTrip(rating: Option<int>)
    requires Drawable(rating)
    ensures ReadRating(RatingCell(rating)) == rating
  {
    if rating.Some? {
      var cell := RatingCell(rating);
      assert cell != NotRated by {
        assert NotRated[0] == 'N';
      }
      StarsCount(rating.value);
    }
  }

  // ---------------------------------------------------------------- labels

  /** The badge text for a status. */
  function StatusLabel(s: Status): (text: string)
    ensures LabelStatus(text) == Some(s)
  {
    match s
    case Pending => "Pending"
    case Approved => "Approved"
    case Rejected => "Rejected"
  }

  /** The status a badge text stands for, if any. */
  function LabelStatus(text: string): Option<Status> {
    if text == "Pending" then Some(Pending)
    else if text == "Approved" then Some(Approved)
    else if text == "Rejected" then Some(Rejected)
    else None
  }

  /** Distinct statuses get distinct badges. */
  lemma StatusLabelInjective(s: Status, t: Status)
    ensures StatusLabel(s) == StatusLabel(t) <==> s == t
  {
  }

  // ---------------------------------------------------------------- the page

  /** The text of one table row, cell by cell. */
  datatype Row = Row(
    name: string,
    subDomain: string,
    domain: string,
    location: string,
    email: string,
    status: string,
    rating: string)

  /**
   * One table row: name, domain and email verbatim, and each remaining cell
   * drawn from its own field, the badge and rating reading back to the
   * vendor's status and rating.
   */
  function RenderRow(v: Vendor): (row: Row)
    requires Drawable(v.rating)
    ensures row.name == v.name && row.domain == v.domain && row.email == v.email
    ensures row.subDomain != "" && row.location != ""
    ensures row.subDomain == SubDomainCell(v.subDomain) && row.location == Location(v.city, v.country)
    ensures row.status == StatusLabel(v.status) && row.rating == RatingCell(v.rating)
    ensures LabelStatus(row.status) == Some(v.status)
    ensures ReadRating(row.rating) == v.rating
  {
    RatingCellRoundTrip(v.rating);
    Row(v.name, SubDomainCell(v.subDomain), v.domain, Location(v.city, v.country), v.email,
        StatusLabel(v.status), RatingCell(v.rating))
  }

  /** Every vendor's rating can be drawn. */
  predicate AllDrawable(vs: seq<Vendor>) {
    forall i :: 0 <= i < |vs| ==> Drawable(vs[i].rating)
  }

  /** `vendors.map(...)`: one row per vendor, in list order. */
  function RenderRows(vs: seq<Vendor>): (rows: seq<Row>)
    requires AllDrawable(vs)
    ensures |rows| == |vs|
    ensures forall i :: 0 <= i < |vs| ==> rows[i] == RenderRow(vs[i])
  {
    if vs == [] then [] else [RenderRow(vs[0])] + RenderRows(vs[1..])
  }

  /** What the directory section shows. */
  datatype DirectoryView = LoadingView | EmptyView | TableView(rows: seq<Row>)

  /**
   * The loading message while the fetch is outstanding, then the empty
   * message for an empty list, and the table otherwise.
   */
  function View(loading: bool, vs: seq<Vendor>): (view: DirectoryView)
    requires !loading ==> AllDrawable(vs)
    ensures view.LoadingView? <==> loading
    ensures view.EmptyView? <==> !loading && vs == []
    ensures view.TableView? <==> !loading && vs != []
    ensures view.TableView? ==> |view.rows| == |vs| && forall i :: 0 <= i < |vs| ==> view.rows[i] == RenderRow(vs[i])
  {
    if loading then LoadingView
    else if |vs| == 0 then EmptyView
    else TableView(RenderRows(vs))
  }
}
