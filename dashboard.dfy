/** The recommender dashboard script: score bands and colours, percentages,
    paging of the result cards (3 per page) and of the pair table (10 per
    page), the Prev/Next targets, the best-seller pick, and the search and
    modal handlers over the view's state. */
module Dashboard {
  import opened Sorting
  import opened Text
  import opened Recommend

  const ItemsPerPage := 3
  const ModalItemsPerPage := 10

  // ---------------------------------------------------------------------
  // Bands and colours.

  function ScoreLabel(v: real): string {
    if v >= 0.85 then "Very Strong"
    else if v >= 0.65 then "Strong"
    else if v >= 0.40 then "Moderate"
    else if v >= 0.20 then "Weak"
    else "Very Weak"
  }

  /** The position of a label on the scale, weakest first. */
  function LabelRank(band: string): int {
    if band == "Very Weak" then 0
    else if band == "Weak" then 1
    else if band == "Moderate" then 2
    else if band == "Strong" then 3
    else if band == "Very Strong" then 4
    else -1
  }

  /** Every score gets one of the five labels, and a higher score never gets
      a weaker one. */
  lemma ScoreLabelMonotone(v: real, w: real)
    requires v <= w
    ensures 0 <= LabelRank(ScoreLabel(v)) <= LabelRank(ScoreLabel(w)) <= 4
  {
  }

  /** The bands: each label holds exactly the scores between its cut-offs. */
  lemma ScoreLabelBands(v: real)
    ensures ScoreLabel(v) == "Very Strong" <==> 0.85 <= v
    ensures ScoreLabel(v) == "Strong" <==> 0.65 <= v < 0.85
    ensures ScoreLabel(v) == "Moderate" <==> 0.40 <= v < 0.65
    ensures ScoreLabel(v) == "Weak" <==> 0.20 <= v < 0.40
    ensures ScoreLabel(v) == "Very Weak" <==> v < 0.20
  {
  }

  datatype Tone = Green | Yellow | Red

  /** The one set of cut-offs behind both colour helpers. */
  function ToneOf(v: real): Tone {
    if v >= 0.7 then Green else if v >= 0.4 then Yellow else Red
  }

  function PerformanceBadge(v: real): string {
    if v >= 0.7 then "bg-green-100 text-green-700"
    else if v >= 0.4 then "bg-yellow-100 text-yellow-700"
    else "bg-red-100 text-red-700"
  }

  function ScoreColor(v: real): string {
    if v >= 0.7 then "bg-green-500"
    else if v >= 0.4 then "bg-yellow-500"
    else "bg-red-500"
  }

  function BadgeClass(t: Tone): string {
    match t
    case Green => "bg-green-100 text-green-700"
    case Yellow => "bg-yellow-100 text-yellow-700"
    case Red => "bg-red-100 text-red-700"
  }

  function BarClass(t: Tone): string {
    match t
    case Green => "bg-green-500"
    case Yellow => "bg-yellow-500"
    case Red => "bg-red-500"
  }

  /** Badge and bar of a value always show the same colour, and the colour
      never gets worse as the value grows. */
  lemma MatchingColours(v: real, w: real)
    ensures PerformanceBadge(v) == BadgeClass(ToneOf(v)) && ScoreColor(v) == BarClass(ToneOf(v))
    ensures v <= w && ToneOf(v) == Green ==> ToneOf(w) == Green
    ensures v <= w && ToneOf(w) == Red ==> ToneOf(v) == Red
  {
  }

  // ---------------------------------------------------------------------
  // Percentages.

  /** `(v * 100).toFixed(1)`, read back as a number: the nearest multiple of
      0.1. `toFixed` rounds the magnitude and then restores the sign, so a
      tie goes away from zero. */
  function Percentage(v: real): real {
    if v >= 0.0 then (v * 1000.0 + 0.5).Floor as real / 10.0
    else -((-v * 1000.0 + 0.5).Floor as real / 10.0)
  }

  /** `Math.min(percentage(v), 100)`: the width of a bar. */
  function SafePercentage(v: real): real {
    var p := Percentage(v);
    if p <= 100.0 then p else 100.0
  }

  /** The shown percentage is within 0.05 of 100·v; on a tie it is the one
      farther from zero. */
  lemma PercentageClose(v: real)
    ensures v * 100.0 - 0.05 <= Percentage(v) <= v * 100.0 + 0.05
    ensures v >= 0.0 ==> v * 100.0 - 0.05 < Percentage(v)
    ensures v < 0.0 ==> Percentage(v) < v * 100.0 + 0.05
  {
  }

  /** A negative value shows as the negation of its magnitude's percentage. */
  lemma PercentageSymmetric(v: real)
    requires v > 0.0
    ensures Percentage(-v) == -Percentage(v)
  {
  }

  /** Negative ties: -0.0125 shows as -1.3 and -0.0005 as -0.1. */
  lemma PercentageNegativeTies()
    ensures Percentage(-0.0125) == -1.3
    ensures Percentage(-0.0005) == -0.1
  {
    assert (0.0125 * 1000.0 + 0.5).Floor == 13;
    assert (0.0005 * 1000.0 + 0.5).Floor == 1;
  }

  /** A bar never overflows, and a score in [0,1] fills between 0 and 100. */
  lemma SafePercentageBounds(v: real)
    ensures SafePercentage(v) <= 100.0
    ensures v >= 0.0 ==> SafePercentage(v) >= 0.0
    ensures v <= 1.0 ==> SafePercentage(v) == Percentage(v)
  {
    PercentageClose(v);
    if v <= 1.0 {
      var k := (v * 1000.0 + 0.5).Floor;
      assert k <= 1000;
    }
  }

  // ---------------------------------------------------------------------
  // Paging.

  /** `Math.ceil(n / perPage)` */
  function TotalPages(n: nat, perPage: nat): nat
    requires perPage > 0
  {
    (n + perPage - 1) / perPage
  }

  /** JavaScript's `Array.prototype.slice` index clamping. */
  function Clamp(i: int, len: nat): nat {
    if i < 0 then (if len + i < 0 then 0 else len + i) else if i > len then len else i
  }

  function Slice<T>(s: seq<T>, start: int, end: int): seq<T> {
    var a, b := Clamp(start, |s|), Clamp(end, |s|);
    if a < b then s[a..b] else []
  }

  /** `s.slice((page - 1) * perPage, (page - 1) * perPage + perPage)` */
  function PageSlice<T>(s: seq<T>, page: int, perPage: nat): seq<T> {
    var start := (page - 1) * perPage;
    Slice(s, start, start + perPage)
  }

  /** Pages 1 to k, one after the other. */
  function PagesUpTo<T>(s: seq<T>, perPage: nat, k: nat): seq<T> {
    if k == 0 then [] else PagesUpTo(s, perPage, k - 1) + PageSlice(s, k, perPage)
  }

  /** Page p (from 1) shows the elements at [(p-1)·perPage, p·perPage). */
  lemma PageRange<T>(s: seq<T>, page: int, perPage: nat)
    requires page >= 1 && perPage > 0
    ensures var start := (page - 1) * perPage;
      PageSlice(s, page, perPage)
        == if start >= |s| then [] else s[start..if start + perPage <= |s| then start + perPage else |s|]
  {
    var start := (page - 1) * perPage;
    assert start >= 0 by { ProductNonNegative(page - 1, perPage); }
  }

  lemma ProductNonNegative(a: int, b: int)
    requires a >= 0 && b >= 0
    ensures a * b >= 0
  {
  }

  /** The first k pages are the first k·perPage elements (or all of them). */
  lemma {:induction false} PagesPrefix<T>(s: seq<T>, perPage: nat, k: nat)
    requires perPage > 0
    ensures PagesUpTo(s, perPage, k) == s[..if k * perPage <= |s| then k * perPage else |s|]
  {
    if k > 0 {
      PagesPrefix(s, perPage, k - 1);
      ProductNonNegative(k - 1, perPage);
      ProductStep(k, perPage);
      SliceAfterPrefix(s, (k - 1) * perPage, perPage, k * perPage);
    }
  }

  lemma ProductStep(k: int, c: int)
    ensures k * c == (k - 1) * c + c
  {
  }

  /** The first `start` elements followed by the slice from `start` of
      length `len` are the first `start + len` elements (all clamped). */
  lemma SliceAfterPrefix<T>(s: seq<T>, start: int, len: nat, end: int)
    requires start >= 0 && end == start + len
    ensures s[..if start <= |s| then start else |s|] + Slice(s, start, start + len)
         == s[..if end <= |s| then end else |s|]
  {
    if start < |s| && len > 0 {
      var e := if end <= |s| then end else |s|;
      assert s[..start] + s[start..e] == s[..e];
    }
  }

  /** Pages 1 to TotalPages, in order, are the whole list: every element is
      on exactly one page and the pages keep the list's order. */
  lemma PagesCover<T>(s: seq<T>, perPage: nat)
    requires perPage > 0
    ensures PagesUpTo(s, perPage, TotalPages(|s|, perPage)) == s
  {
    var t := TotalPages(|s|, perPage);
    PagesPrefix(s, perPage, t);
    DivCover(|s|, perPage);
  }

  lemma DivCover(n: nat, perPage: nat)
    requires perPage > 0
    ensures TotalPages(n, perPage) * perPage >= n
    ensures TotalPages(n, perPage) == 0 || (TotalPages(n, perPage) - 1) * perPage < n
  {
    var t := TotalPages(n, perPage);
    var r := (n + perPage - 1) % perPage;
    assert n + perPage - 1 == t * perPage + r;
  }

  /** A page past the last one shows nothing; every page up to it shows
      something. */
  lemma PageEmpty<T>(s: seq<T>, page: int, perPage: nat)
    requires page >= 1 && perPage > 0
    ensures PageSlice(s, page, perPage) == [] <==> page > TotalPages(|s|, perPage)
  {
    ProductNonNegative(page - 1, perPage);
    SliceEmpty(s, (page - 1) * perPage, perPage);
    DivCover(|s|, perPage);
    StartBeyond(|s|, perPage, page, TotalPages(|s|, perPage), (page - 1) * perPage);
  }

  /** A slice of positive length from a non-negative start is empty exactly
      when it starts at or past the end. */
  lemma SliceEmpty<T>(s: seq<T>, start: int, len: nat)
    requires start >= 0 && len > 0
    ensures Slice(s, start, start + len) == [] <==> start >= |s|
  {
    if start < |s| {
      assert Slice(s, start, start + len)[0] == s[start];
    }
  }

  /** Page `page` starts past the n elements exactly when it is past the
      last page t. */
  lemma StartBeyond(n: nat, perPage: nat, page: int, t: nat, start: int)
    requires perPage > 0 && page >= 1
    requires t * perPage >= n && (t == 0 || (t - 1) * perPage < n)
    requires start == (page - 1) * perPage
    ensures start >= n <==> page > t
  {
    if page <= t {
      MulMonotone(page - 1, t - 1, perPage);
    } else {
      MulMonotone(t, page - 1, perPage);
    }
  }

  lemma MulMonotone(a: int, b: int, c: nat)
    requires 0 <= a <= b
    ensures a * c <= b * c
  {
    ProductNonNegative(b - a, c);
  }

  /** `Math.max(1, p - 1)` */
  function PrevPage(current: int): int {
    if current - 1 >= 1 then current - 1 else 1
  }

  /** `Math.min(totalPages, p + 1)` */
  function NextPage(total: int, current: int): int {
    if current + 1 <= total then current + 1 else total
  }

  datatype Label = Prev | Number(n: int) | Next
  datatype Button = Button(kind: Label, target: int, disabled: bool)

  function ButtonFor(kind: Label, target: int, current: int): Button {
    Button(kind, target, target == current)
  }

  /** The buttons `renderPagination` puts into each of its two containers
      (`renderModalPagination` into its one): none when there is at most one
      page, else Prev, one per page, Next. */
  function PageButtons(total: int, current: int): seq<Button> {
    if total <= 1 then []
    else
      [ButtonFor(Prev, PrevPage(current), current)]
      + seq(total, i requires 0 <= i < total => ButtonFor(Number(i + 1), i + 1, current))
      + [ButtonFor(Next, NextPage(total, current), current)]
  }

  /** From a page in range every button leads to a page in range; the page
      buttons are 1..total in order and only the current one is disabled. */
  lemma ButtonsInRange(total: int, current: int)
    requires 1 <= current <= total
    ensures forall b :: b in PageButtons(total, current) ==> 1 <= b.target <= total
    ensures total <= 1 <==> PageButtons(total, current) == []
    ensures total > 1 ==> (|PageButtons(total, current)| == total + 2
      && PageButtons(total, current)[0].target == PrevPage(current)
      && PageButtons(total, current)[total + 1].target == NextPage(total, current)
      && forall i :: 1 <= i <= total ==> PageButtons(total, current)[i] == Button(Number(i), i, i == current))
  {
    if total > 1 {
      ButtonsAt(total, current);
      var bs := PageButtons(total, current);
      forall b | b in bs ensures 1 <= b.target <= total {
        var j :| 0 <= j < |bs| && bs[j] == b;
      }
    }
  }

  /** The buttons of more than one page, position by position. */
  lemma ButtonsAt(total: int, current: int)
    requires 1 <= current <= total && total > 1
    ensures var bs := PageButtons(total, current);
      && |bs| == total + 2
      && bs[0] == ButtonFor(Prev, PrevPage(current), current)
      && bs[total + 1] == ButtonFor(Next, NextPage(total, current), current)
      && (forall i :: 1 <= i <= total ==> bs[i] == Button(Number(i), i, i == current))
      && (forall i :: 0 <= i < |bs| ==> 1 <= bs[i].target <= total)
  {
    var pages := seq(total, i requires 0 <= i < total => ButtonFor(Number(i + 1), i + 1, current));
    var bs := [ButtonFor(Prev, PrevPage(current), current)] + pages + [ButtonFor(Next, NextPage(total, current), current)];
    assert PageButtons(total, current) == bs;
    forall i | 1 <= i <= total ensures bs[i] == Button(Number(i), i, i == current) {
      assert bs[i] == pages[i - 1];
    }
  }

  /** The body of `renderPagination` (and `renderModalPagination`): the early
      return, Prev, the loop over the pages, Next. */
  method RenderPagination(total: int, current: int) returns (buttons: seq<Button>)
    ensures buttons == PageButtons(total, current)
  {
    buttons := [];
    if total <= 1 {
      return;
    }
    buttons := buttons + [ButtonFor(Prev, PrevPage(current), current)];
    var i := 1;
    while i <= total
      invariant 1 <= i <= total + 1
      invariant buttons == [ButtonFor(Prev, PrevPage(current), current)]
        + seq(i - 1, k requires 0 <= k < i - 1 => ButtonFor(Number(k + 1), k + 1, current))
    {
      buttons := buttons + [ButtonFor(Number(i), i, current)];
      i := i + 1;
    }
    buttons := buttons + [ButtonFor(Next, NextPage(total, current), current)];
  }

  // ---------------------------------------------------------------------
  // Best seller and search.

  /** `filteredResults.reduce((a, b) => a.final_score > b.final_score ? a : b, filteredResults[0])`
      over the first k entries. */
  function Best(rs: seq<Result>, k: nat): Result
    requires 0 < |rs| && k <= |rs|
  {
    if k == 0 then rs[0]
    else
      var a, b := Best(rs, k - 1), rs[k - 1];
      if a.finalScore > b.finalScore then a else b
  }

  /** The star goes to no card when there are no results. */
  function BestSeller(rs: seq<Result>): Option<Result> {
    if rs == [] then None else Some(Best(rs, |rs|))
  }

  datatype Option<T> = None | Some(value: T)

  /** Among the first k entries, entry j scores highest and no later one ties it. */
  ghost predicate LastMaxAt(rs: seq<Result>, k: nat, j: nat)
    requires k <= |rs|
  {
    j < k
    && (forall i :: 0 <= i < k ==> rs[i].finalScore <= rs[j].finalScore)
    && (forall i :: j < i < k ==> rs[i].finalScore < rs[j].finalScore)
  }

  /** The reduce keeps the LAST entry of highest score among the first k. */
  lemma {:induction false} BestIsLastMax(rs: seq<Result>, k: nat)
    requires 0 < k <= |rs|
    ensures exists j :: (0 <= j < k && Best(rs, k) == rs[j]
      && (forall i :: 0 <= i < k ==> rs[i].finalScore <= rs[j].finalScore)
      && (forall i :: j < i < k ==> rs[i].finalScore < rs[j].finalScore))
  {
    var j := BestIndex(rs, k);
    assert LastMaxAt(rs, k, j);
  }

  lemma {:induction false} BestIndex(rs: seq<Result>, k: nat) returns (j: nat)
    requires 0 < k <= |rs|
    ensures LastMaxAt(rs, k, j) && Best(rs, k) == rs[j]
  {
    if k == 1 {
      j := 0;
      assert Best(rs, 1) == rs[0];
    } else {
      var j' := BestIndex(rs, k - 1);
      if rs[j'].finalScore <= rs[k - 1].finalScore {
        j := k - 1;
      } else {
        j := j';
      }
    }
  }

  /** The best seller of a non-empty list scores at least as high as every
      entry, and is the last entry with that score. */
  lemma BestSellerIsMax(rs: seq<Result>)
    ensures rs == [] <==> BestSeller(rs) == None
    ensures rs != [] ==> exists j :: (0 <= j < |rs| && BestSeller(rs) == Some(rs[j])
      && (forall i :: 0 <= i < |rs| ==> rs[i].finalScore <= rs[j].finalScore)
      && (forall i :: j < i < |rs| ==> rs[i].finalScore < rs[j].finalScore))
  {
    if rs != [] {
      BestIsLastMax(rs, |rs|);
    }
  }

  /** `hay.includes(needle)`: needle starts at some position of hay. */
  predicate Contains(hay: string, needle: string) {
    needle <= hay || (hay != [] && Contains(hay[1..], needle))
  }

  /** `xs.filter(x => name(x).toLowerCase().includes(term))`, with
      `term` already lowercased. */
  function Filter<T>(xs: seq<T>, name: T -> string, term: string): seq<T> {
    if xs == [] then []
    else
      var rest := Filter(xs[..|xs| - 1], name, term);
      if Contains(Lower(name(xs[|xs| - 1])), term) then rest + [xs[|xs| - 1]] else rest
  }

  /** The filter keeps exactly the matching elements... */
  lemma {:induction false} FilterMembers<T>(xs: seq<T>, name: T -> string, term: string, x: T)
    ensures x in Filter(xs, name, term) <==> x in xs && Contains(Lower(name(x)), term)
  {
    if xs != [] {
      var init := xs[..|xs| - 1];
      FilterMembers(init, name, term, x);
      assert xs == init + [xs[|xs| - 1]];
    }
  }

  /** ...in their original order: filtering a concatenation filters each part. */
  lemma {:induction false} FilterAppend<T>(xs: seq<T>, ys: seq<T>, name: T -> string, term: string)
    ensures Filter(xs + ys, name, term) == Filter(xs, name, term) + Filter(ys, name, term)
  {
    if ys != [] {
      var init := ys[..|ys| - 1];
      FilterAppend(xs, init, name, term);
      assert (xs + ys)[..|xs + ys| - 1] == xs + init;
      assert (xs + ys)[|xs + ys| - 1] == ys[|ys| - 1];
    } else {
      assert xs + ys == xs;
    }
  }

  /** Every name contains the empty term, so the empty search keeps everything. */
  lemma {:induction false} FilterEmptyTerm<T>(xs: seq<T>, name: T -> string)
    ensures Filter(xs, name, "") == xs
  {
    if xs != [] {
      FilterEmptyTerm(xs[..|xs| - 1], name);
      assert Contains(Lower(name(xs[|xs| - 1])), "");
      assert xs == xs[..|xs| - 1] + [xs[|xs| - 1]];
    }
  }

  /** Filtering a list ordered by a key keeps it ordered. */
  lemma {:induction false} FilterSorted<T>(xs: seq<T>, name: T -> string, term: string, key: T -> real)
    requires SortedDesc(xs, key)
    ensures SortedDesc(Filter(xs, name, term), key)
  {
    if xs != [] {
      var init, last := xs[..|xs| - 1], xs[|xs| - 1];
      FilterSorted(init, name, term, key);
      var f := Filter(init, name, term);
      forall y | y in f ensures key(y) >= key(last) {
        FilterMembers(init, name, term, y);
        var i :| 0 <= i < |init| && init[i] == y;
      }
    }
  }

  function ResultName(r: Result): string { r.name }
  function PairName(p: Pair): string { p.name }
  function PairScore(p: Pair): real { p.score }

  // ---------------------------------------------------------------------
  // The view's state.

  class Screen {
    var allResults: seq<Result>
    var filteredResults: seq<Result>
    var currentPage: int
    var currentModalPairs: seq<Pair>
    var modalFilteredPairs: seq<Pair>
    var currentModalPage: int
    var modalOpen: bool
    var modalProductName: string
    var modalTerm: string

    /** Both current pages lie between 1 and their last page (1 when there
        is nothing to show), and the modal's pairs, all and filtered, are
        ordered by score. */
    ghost predicate Valid()
      reads this
    {
      1 <= currentPage && (currentPage == 1 || currentPage <= TotalPages(|filteredResults|, ItemsPerPage))
      && 1 <= currentModalPage
      && (currentModalPage == 1 || currentModalPage <= TotalPages(|modalFilteredPairs|, ModalItemsPerPage))
      && SortedDesc(currentModalPairs, PairScore) && SortedDesc(modalFilteredPairs, PairScore)
    }

    /** The script's initial `let` bindings. */
    constructor ()
      ensures Valid()
      ensures allResults == [] && filteredResults == [] && currentPage == 1
      ensures currentModalPairs == [] && modalFilteredPairs == [] && currentModalPage == 1
      ensures !modalOpen && modalTerm == ""
    {
      allResults, filteredResults, currentPage := [], [], 1;
      currentModalPairs, modalFilteredPairs, currentModalPage := [], [], 1;
      modalOpen, modalProductName, modalTerm := false, "", "";
    }

    /** The cards of the current page. */
    function VisibleResults(): seq<Result>
      reads this
    {
      PageSlice(filteredResults, currentPage, ItemsPerPage)
    }

    /** The rows of the current modal page. */
    function VisiblePairs(): seq<Pair>
      reads this
    {
      PageSlice(modalFilteredPairs, currentModalPage, ModalItemsPerPage)
    }

    function Buttons(): seq<Button>
      reads this
    {
      PageButtons(TotalPages(|filteredResults|, ItemsPerPage), currentPage)
    }

    function ModalButtons(): seq<Button>
      reads this
    {
      PageButtons(TotalPages(|modalFilteredPairs|, ModalItemsPerPage), currentModalPage)
    }

    /** The run button once the service answered: the new results, all of
        them shown, from the first page. */
    method Load(results: seq<Result>)
      requires Valid()
      modifies this
      ensures Valid()
      ensures allResults == results && filteredResults == results && currentPage == 1
      ensures currentModalPairs == old(currentModalPairs) && modalFilteredPairs == old(modalFilteredPairs)
      ensures currentModalPage == old(currentModalPage) && modalOpen == old(modalOpen)
      ensures modalProductName == old(modalProductName) && modalTerm == old(modalTerm)
    {
      allResults := results;
      filteredResults := results;
      currentPage := 1;
    }

    /** The dashboard search's input handler. */
    method Search(input: string)
      requires Valid()
      modifies this`filteredResults, this`currentPage
      ensures Valid()
      ensures filteredResults == Filter(allResults, ResultName, Lower(input))
      ensures currentPage == 1
    {
      var term := Lower(input);
      if term != "" {
        filteredResults := Filter(allResults, ResultName, term);
      } else {
        filteredResults := allResults;
        FilterEmptyTerm(allResults, ResultName);
      }
      currentPage := 1;
    }

    /** A page button's click handler. */
    method GoToPage(page: int)
      requires Valid() && 1 <= page <= TotalPages(|filteredResults|, ItemsPerPage)
      modifies this`currentPage
      ensures Valid() && currentPage == page
    {
      currentPage := page;
    }

    method GoToModalPage(page: int)
      requires Valid() && 1 <= page <= TotalPages(|modalFilteredPairs|, ModalItemsPerPage)
      modifies this`currentModalPage
      ensures Valid() && currentModalPage == page
    {
      currentModalPage := page;
    }

    /** `openPairsModal(name, pairs)`: the pairs, highest score first, all
        of them shown, from the first page. */
    method OpenPairsModal(name: string, pairs: seq<Pair>)
      requires Valid()
      modifies this`modalProductName, this`currentModalPairs, this`modalFilteredPairs, this`currentModalPage, this`modalOpen
      ensures Valid()
      ensures currentModalPairs == SortDesc(pairs, PairScore)
      ensures multiset(currentModalPairs) == multiset(pairs)
      ensures modalFilteredPairs == currentModalPairs && currentModalPage == 1
      ensures modalOpen && modalProductName == name
    {
      var sorted := SortDesc(pairs, PairScore);
      SortDescSorted(pairs, PairScore);
      modalProductName := name;
      currentModalPairs := sorted;
      modalFilteredPairs := sorted;
      currentModalPage := 1;
      modalOpen := true;
    }

    /** The modal search's input handler: the ordered pairs whose name holds
        the term, still ordered, from the first page. */
    method ModalSearch(input: string)
      requires Valid()
      modifies this`modalFilteredPairs, this`currentModalPage, this`modalTerm
      ensures Valid()
      ensures modalFilteredPairs == Filter(currentModalPairs, PairName, Lower(input))
      ensures currentModalPage == 1 && modalTerm == input
    {
      modalTerm := input;
      modalFilteredPairs := Filter(currentModalPairs, PairName, Lower(input));
      FilterSorted(currentModalPairs, PairName, Lower(input), PairScore);
      currentModalPage := 1;
    }

    /** The close button's handler. */
    method CloseModal()
      requires Valid()
      modifies this`modalOpen, this`modalTerm, this`currentModalPairs, this`modalFilteredPairs, this`currentModalPage
      ensures Valid()
      ensures !modalOpen && modalTerm == ""
      ensures currentModalPairs == [] && modalFilteredPairs == [] && currentModalPage == 1
    {
      modalOpen := false;
      modalTerm := "";
      currentModalPairs := [];
      modalFilteredPairs := [];
      currentModalPage := 1;
    }
  }

  /** In a valid state the pagination offers only pages that exist. */
  lemma ValidButtons(s: Screen)
    requires s.Valid()
    ensures forall b :: b in s.Buttons() ==> 1 <= b.target <= TotalPages(|s.filteredResults|, ItemsPerPage)
    ensures forall b :: b in s.ModalButtons() ==> 1 <= b.target <= TotalPages(|s.modalFilteredPairs|, ModalItemsPerPage)
  {
    var t := TotalPages(|s.filteredResults|, ItemsPerPage);
    if t >= 1 {
      ButtonsInRange(t, s.currentPage);
    }
    var m := TotalPages(|s.modalFilteredPairs|, ModalItemsPerPage);
    if m >= 1 {
      ButtonsInRange(m, s.currentModalPage);
    }
  }

  /** In a valid state the current page shows something whenever there is
      something to show, so "No product pairs found." appears only for an
      empty list. */
  lemma VisibleNonEmpty(s: Screen)
    requires s.Valid()
    ensures s.VisibleResults() == [] <==> s.filteredResults == []
    ensures s.VisiblePairs() == [] <==> s.modalFilteredPairs == []
  {
    PageEmpty(s.filteredResults, s.currentPage, ItemsPerPage);
    PageEmpty(s.modalFilteredPairs, s.currentModalPage, ModalItemsPerPage);
  }
}
