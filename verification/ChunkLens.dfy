/** The paged prologue: splitting a layout into pages and reassembling it in any order. */
module ChunkLens {
  import opened Common

  const MAX_CHUNK_LENS_PER_FRAME: nat := 2048
  const MAX_RESOURCE_CHUNK_COUNT: nat := 1_048_576

  type u64 = x: int | 0 <= x < 0x1_0000_0000_0000_0000

  datatype Page = Page(offset: u64, entries: seq<u64>)

  datatype ChunkLensError =
    | ChunkCountTooLarge(chunkCount: nat)
    | AllocationFailed(chunkCount: nat, bytes: nat)
    | EmptyPage(offset: u64)
    | PageTooLarge(entries: nat)
    | MisalignedOffset(offset: u64)
    | OffsetOutOfRange(offset: u64, chunkCount: nat)
    | PageExtendsPastEnd(offset: u64, entries: nat, chunkCount: nat)
    | UnexpectedPageLength(offset: u64, entries: nat, expected: nat)
    | DuplicatePage(offset: u64)
    | Incomplete(have: nat, want: nat)

  // ---------------------------------------------------------------- pages of a layout

  /** Consecutive pieces of 2,048 entries, the last one shorter. */
  function Chunks(lens: seq<u64>): seq<seq<u64>> {
    if lens == [] then []
    else if |lens| <= MAX_CHUNK_LENS_PER_FRAME then [lens]
    else [lens[..MAX_CHUNK_LENS_PER_FRAME]] + Chunks(lens[MAX_CHUNK_LENS_PER_FRAME..])
  }

  function PageCount(n: nat): nat {
    (n + MAX_CHUNK_LENS_PER_FRAME - 1) / MAX_CHUNK_LENS_PER_FRAME
  }

  /** The number of entries page slot `slot` of an `n`-entry array must carry. */
  function SlotLength(n: nat, slot: nat): nat
    requires slot < PageCount(n)
  {
    Min(MAX_CHUNK_LENS_PER_FRAME, n - slot * MAX_CHUNK_LENS_PER_FRAME)
  }

  /** Every offset into the layout fits a `u64`, as it does for any array held in memory. */
  predicate Addressable(lens: seq<u64>) {
    |lens| < 0x1_0000_0000_0000_0000
  }

  /** What page slot `slot` of the layout `lens` holds. */
  function SlotPage(lens: seq<u64>, slot: nat): Page
    requires slot < PageCount(|lens|) && Addressable(lens)
  {
    var start := slot * MAX_CHUNK_LENS_PER_FRAME;
    Page(start, lens[start..start + SlotLength(|lens|, slot)])
  }

  lemma LaterSlot(lens: seq<u64>, slot: nat)
    requires Addressable(lens) && 0 < slot < PageCount(|lens|)
    ensures PageCount(|lens[MAX_CHUNK_LENS_PER_FRAME..]|) == PageCount(|lens|) - 1
    ensures SlotPage(lens, slot).entries == SlotPage(lens[MAX_CHUNK_LENS_PER_FRAME..], slot - 1).entries
  {
    var start, size := slot * MAX_CHUNK_LENS_PER_FRAME, SlotLength(|lens|, slot);
    var from := start - MAX_CHUNK_LENS_PER_FRAME;
    assert SlotLength(|lens| - MAX_CHUNK_LENS_PER_FRAME, slot - 1) == size;
    SliceOfSlice(lens, MAX_CHUNK_LENS_PER_FRAME, |lens|, from, from + size);
  }

  lemma {:induction false} ChunksTile(lens: seq<u64>, slot: nat)
    requires Addressable(lens)
    ensures |Chunks(lens)| == PageCount(|lens|)
    ensures slot < PageCount(|lens|) ==> Chunks(lens)[slot] == SlotPage(lens, slot).entries
  {
    if |lens| <= MAX_CHUNK_LENS_PER_FRAME {
    } else {
      var rest := lens[MAX_CHUNK_LENS_PER_FRAME..];
      ChunksTile(rest, if slot > 0 then slot - 1 else 0);
      assert PageCount(|lens|) == PageCount(|rest|) + 1;
      if 0 < slot < PageCount(|lens|) {
        LaterSlot(lens, slot);
        assert Chunks(lens)[slot] == Chunks(rest)[slot - 1];
      }
    }
  }

  function SplitChunkLensPages(lens: seq<u64>): (pages: seq<Page>)
    requires Addressable(lens)
  {
    ChunksTile(lens, 0);
    seq(|Chunks(lens)|, i requires 0 <= i < |Chunks(lens)| => Page(i * MAX_CHUNK_LENS_PER_FRAME, Chunks(lens)[i]))
  }

  /** The pages are exactly the aligned slots of the layout, in order. */
  lemma SplitIsTiling(lens: seq<u64>)
    requires Addressable(lens)
    ensures |SplitChunkLensPages(lens)| == PageCount(|lens|)
    ensures forall slot :: 0 <= slot < PageCount(|lens|) ==> SplitChunkLensPages(lens)[slot] == SlotPage(lens, slot)
    ensures 2048 * (PageCount(|lens|) - 1) < |lens| <= 2048 * PageCount(|lens|) || lens == []
    ensures forall slot :: 0 <= slot < PageCount(|lens|) ==>
      && SplitChunkLensPages(lens)[slot].offset == 2048 * slot
      && SplitChunkLensPages(lens)[slot].entries == lens[2048 * slot..Min(2048 * (slot + 1), |lens|)]
  {
    ChunksTile(lens, 0);
    forall slot | 0 <= slot < PageCount(|lens|)
      ensures SplitChunkLensPages(lens)[slot] == SlotPage(lens, slot)
    {
      ChunksTile(lens, slot);
    }
  }

  // ---------------------------------------------------------------- the assembler as a value

  datatype Assembly = Assembly(lens: seq<u64>, filled: seq<bool>, filledPages: nat)

  function Start(chunkCount: nat): Assembly {
    Assembly(seq(chunkCount, _ => 0), seq(PageCount(chunkCount), _ => false), 0)
  }

  ghost predicate Shaped(a: Assembly) {
    |a.lens| <= MAX_RESOURCE_CHUNK_COUNT && |a.filled| == PageCount(|a.lens|)
  }

  /** The slot a page claims, as an index; meaningful when the offset is aligned and in range. */
  function SlotOf(page: Page): nat {
    page.offset / MAX_CHUNK_LENS_PER_FRAME
  }

  /** The first rule of the prologue that the page breaks, if any. */
  function Rejection(a: Assembly, page: Page): Option<ChunkLensError>
    requires Shaped(a)
  {
    var n, size := |a.lens|, |page.entries|;
    if size == 0 then Some(EmptyPage(page.offset))
    else if size > MAX_CHUNK_LENS_PER_FRAME then Some(PageTooLarge(size))
    else if page.offset % MAX_CHUNK_LENS_PER_FRAME != 0 then Some(MisalignedOffset(page.offset))
    else if page.offset >= n then Some(OffsetOutOfRange(page.offset, n))
    else if page.offset + size > n then Some(PageExtendsPastEnd(page.offset, size, n))
    else if size != SlotLength(n, SlotOf(page)) then
      Some(UnexpectedPageLength(page.offset, size, SlotLength(n, SlotOf(page))))
    else if a.filled[SlotOf(page)] then Some(DuplicatePage(page.offset))
    else None
  }

  /** The page names an unfilled aligned slot and has exactly that slot's length. */
  predicate Fits(a: Assembly, page: Page)
    requires Shaped(a)
  {
    exists slot: nat :: slot < |a.filled| && FitsSlot(a, page, slot)
  }

  predicate FitsSlot(a: Assembly, page: Page, slot: nat)
    requires Shaped(a) && slot < |a.filled|
  {
    && page.offset == slot * MAX_CHUNK_LENS_PER_FRAME
    && |page.entries| == SlotLength(|a.lens|, slot)
    && !a.filled[slot]
  }

  lemma AcceptedExactlyWhenFits(a: Assembly, page: Page)
    requires Shaped(a)
    ensures Rejection(a, page).None? <==> Fits(a, page)
    ensures Rejection(a, page).None? ==> SlotOf(page) < |a.filled| && FitsSlot(a, page, SlotOf(page))
  {
    if Fits(a, page) {
      var slot: nat :| slot < |a.filled| && FitsSlot(a, page, slot);
      assert SlotOf(page) == slot;
    }
    if Rejection(a, page).None? {
      assert page.offset == SlotOf(page) * MAX_CHUNK_LENS_PER_FRAME;
      assert FitsSlot(a, page, SlotOf(page));
    }
  }

  /** Which error each page gets: the first rule it breaks, in numbers alone. */
  lemma EachBrokenRuleHasItsError(a: Assembly, page: Page)
    requires Shaped(a)
    ensures var n, at, size := |a.lens|, page.offset, |page.entries|;
      Rejection(a, page) ==
        if size == 0 then Some(EmptyPage(at))
        else if size > 2048 then Some(PageTooLarge(size))
        else if at % 2048 != 0 then Some(MisalignedOffset(at))
        else if at >= n then Some(OffsetOutOfRange(at, n))
        else if at + size > n then Some(PageExtendsPastEnd(at, size, n))
        else if size < 2048 && at + size < n then
          Some(UnexpectedPageLength(at, size, if n - at < 2048 then n - at else 2048))
        else if a.filled[at / 2048] then Some(DuplicatePage(at))
        else None
  {
  }

  function Place(a: Assembly, page: Page): Assembly
    requires Shaped(a) && Rejection(a, page).None?
  {
    Assembly(
      a.lens[..page.offset] + page.entries + a.lens[page.offset + |page.entries|..],
      a.filled[SlotOf(page) := true],
      a.filledPages + 1)
  }

  function Offer(a: Assembly, page: Page): (r: Assembly)
    requires Shaped(a)
    ensures Shaped(r)
  {
    if Rejection(a, page).None? then Place(a, page) else a
  }

  /** Total entries held by the filled slots below `slots`. */
  function FilledEntries(a: Assembly, slots: nat): nat
    requires Shaped(a) && slots <= |a.filled|
  {
    if slots == 0 then 0
    else FilledEntries(a, slots - 1) + if a.filled[slots - 1] then SlotLength(|a.lens|, slots - 1) else 0
  }

  function Yield(a: Assembly): Result<seq<u64>, ChunkLensError>
    requires Shaped(a)
  {
    if a.filledPages == |a.filled| then Ok(a.lens)
    else Err(Incomplete(FilledEntries(a, |a.filled|), |a.lens|))
  }

  function Feed(a: Assembly, pages: seq<Page>): (r: Assembly)
    requires Shaped(a)
    ensures Shaped(r) && |r.lens| == |a.lens|
    decreases |pages|
  {
    if pages == [] then a
    else Offer(Feed(a, pages[..|pages| - 1]), pages[|pages| - 1])
  }

  /** The last of `pages` is accepted after all the others have been fed. */
  predicate LastAccepted(a: Assembly, pages: seq<Page>)
    requires Shaped(a) && pages != []
  {
    Rejection(Feed(a, pages[..|pages| - 1]), pages[|pages| - 1]).None?
  }

  /** The pages of `pages` that are accepted when fed in order. */
  function Accepted(a: Assembly, pages: seq<Page>): seq<Page>
    requires Shaped(a)
    decreases |pages|
  {
    if pages == [] then []
    else if LastAccepted(a, pages) then Accepted(a, pages[..|pages| - 1]) + [pages[|pages| - 1]]
    else Accepted(a, pages[..|pages| - 1])
  }

  // ---------------------------------------------------------------- what the assembler remembers

  ghost predicate NoDuplicates<T(!new)>(s: seq<T>) {
    forall i, j :: 0 <= i < j < |s| ==> s[i] != s[j]
  }

  function CountFilled(filled: seq<bool>): nat {
    if filled == [] then 0
    else CountFilled(filled[..|filled| - 1]) + if filled[|filled| - 1] then 1 else 0
  }

  function TotalEntries(pages: seq<Page>): nat {
    if pages == [] then 0
    else TotalEntries(pages[..|pages| - 1]) + |pages[|pages| - 1].entries|
  }

  /** Page `page` is what the array holds in one of its filled slots. */
  ghost predicate HeldIn(a: Assembly, page: Page)
    requires Shaped(a)
  {
    && SlotOf(page) < |a.filled|
    && a.filled[SlotOf(page)]
    && page == SlotPage(a.lens, SlotOf(page))
  }

  ghost predicate HoldsExactly(a: Assembly, got: seq<Page>)
    requires Shaped(a)
  {
    && (forall i :: 0 <= i < |got| ==> HeldIn(a, got[i]))
    && (forall slot :: 0 <= slot < |a.filled| && a.filled[slot] ==> SlotPage(a.lens, slot) in got)
    && NoDuplicates(got)
  }

  /** The array holds exactly the accepted pages `got`, each intact in its own slot, and the
    * counters agree with the flags.
    */
  ghost predicate Remembers(a: Assembly, got: seq<Page>) {
    && Shaped(a)
    && a.filledPages == CountFilled(a.filled) == |got|
    && FilledEntries(a, |a.filled|) == TotalEntries(got)
    && HoldsExactly(a, got)
  }

  lemma {:induction false} CountAfterFilling(filled: seq<bool>, slot: nat)
    requires slot < |filled| && !filled[slot]
    ensures CountFilled(filled[slot := true]) == CountFilled(filled) + 1
  {
    var last := |filled| - 1;
    var filled' := filled[slot := true];
    if slot < last {
      CountAfterFilling(filled[..last], slot);
      assert filled'[..last] == filled[..last][slot := true];
    } else {
      assert filled'[..last] == filled[..last];
    }
  }

  lemma {:induction false} AllFilledWhenCountIsFull(filled: seq<bool>)
    ensures CountFilled(filled) <= |filled|
    ensures CountFilled(filled) == |filled| <==> forall i :: 0 <= i < |filled| ==> filled[i]
  {
    if filled == [] {
    } else {
      var last := |filled| - 1;
      AllFilledWhenCountIsFull(filled[..last]);
      assert forall i :: 0 <= i < last ==> filled[i] == filled[..last][i];
    }
  }

  lemma {:induction false} NoneFilled(n: nat)
    ensures CountFilled(seq(n, _ => false)) == 0
  {
    if n == 0 {
    } else {
      NoneFilled(n - 1);
      assert seq(n, _ => false)[..n - 1] == seq(n - 1, _ => false);
    }
  }

  lemma {:induction false} EntriesAfterPlacing(a: Assembly, page: Page, slots: nat)
    requires Shaped(a) && Rejection(a, page).None? && slots <= |a.filled|
    ensures FilledEntries(Place(a, page), slots)
      == FilledEntries(a, slots) + if SlotOf(page) < slots then |page.entries| else 0
  {
    AcceptedExactlyWhenFits(a, page);
    if slots == 0 {
    } else {
      EntriesAfterPlacing(a, page, slots - 1);
    }
  }

  lemma {:induction false} NoEntriesAtStart(n: nat, slots: nat)
    requires n <= MAX_RESOURCE_CHUNK_COUNT && slots <= PageCount(n)
    ensures FilledEntries(Start(n), slots) == 0
  {
    if slots == 0 {
    } else {
      NoEntriesAtStart(n, slots - 1);
    }
  }

  lemma SlotsAreDisjoint(n: nat, p: nat, q: nat)
    requires p < PageCount(n) && q < PageCount(n) && p != q
    ensures
      || p * MAX_CHUNK_LENS_PER_FRAME + SlotLength(n, p) <= q * MAX_CHUNK_LENS_PER_FRAME
      || q * MAX_CHUNK_LENS_PER_FRAME + SlotLength(n, q) <= p * MAX_CHUNK_LENS_PER_FRAME
  {
  }

  /** Placing a page fills its own slot with it and leaves every other slot's entries alone. */
  lemma PlacingKeepsOtherSlots(a: Assembly, page: Page, slot: nat)
    requires Shaped(a) && Rejection(a, page).None? && slot < |a.filled|
    ensures SlotPage(Place(a, page).lens, slot) == if slot == SlotOf(page) then page else SlotPage(a.lens, slot)
  {
    AcceptedExactlyWhenFits(a, page);
    var start := slot * MAX_CHUNK_LENS_PER_FRAME;
    var end := start + SlotLength(|a.lens|, slot);
    SlicesOfSplice(a.lens, page.offset, page.entries, start, end);
    if slot != SlotOf(page) {
      SlotsAreDisjoint(|a.lens|, slot, SlotOf(page));
    }
  }

  lemma PlacingHoldsExactly(a: Assembly, got: seq<Page>, page: Page)
    requires Shaped(a) && HoldsExactly(a, got) && Rejection(a, page).None?
    ensures HoldsExactly(Place(a, page), got + [page])
  {
    AcceptedExactlyWhenFits(a, page);
    var a' := Place(a, page);
    forall i | 0 <= i < |got + [page]|
      ensures HeldIn(a', (got + [page])[i])
    {
      PlacingKeepsOtherSlots(a, page, SlotOf((got + [page])[i]));
    }
    forall slot | 0 <= slot < |a'.filled| && a'.filled[slot]
      ensures SlotPage(a'.lens, slot) in got + [page]
    {
      PlacingKeepsOtherSlots(a, page, slot);
      assert page in got + [page];
    }
  }

  lemma PlacingRemembers(a: Assembly, got: seq<Page>, page: Page)
    requires Remembers(a, got) && Rejection(a, page).None?
    ensures Remembers(Place(a, page), got + [page])
  {
    AcceptedExactlyWhenFits(a, page);
    CountAfterFilling(a.filled, SlotOf(page));
    EntriesAfterPlacing(a, page, |a.filled|);
    PlacingHoldsExactly(a, got, page);
    assert (got + [page])[..|got|] == got;
  }

  lemma StartRemembersNothing(n: nat)
    requires n <= MAX_RESOURCE_CHUNK_COUNT
    ensures Remembers(Start(n), [])
  {
    NoneFilled(PageCount(n));
    NoEntriesAtStart(n, PageCount(n));
  }

  /** The assembler invariant over any page sequence, from an empty assembler: the array holds
    * exactly the accepted pages, no accepted entry has been overwritten, the fill count
    * matches the flags, and the entry total is the accepted length.
    */
  lemma {:induction false} FeedKeepsExactlyTheAcceptedPages(n: nat, pages: seq<Page>)
    requires n <= MAX_RESOURCE_CHUNK_COUNT
    ensures Remembers(Feed(Start(n), pages), Accepted(Start(n), pages))
    decreases |pages|
  {
    StartRemembersNothing(n);
    if pages == [] {
    } else {
      var before, last := pages[..|pages| - 1], pages[|pages| - 1];
      FeedKeepsExactlyTheAcceptedPages(n, before);
      if LastAccepted(Start(n), pages) {
        PlacingRemembers(Feed(Start(n), before), Accepted(Start(n), before), last);
      }
    }
  }

  lemma IncompleteReportsTheAcceptedLength(n: nat, pages: seq<Page>)
    requires n <= MAX_RESOURCE_CHUNK_COUNT && Yield(Feed(Start(n), pages)).Err?
    ensures Yield(Feed(Start(n), pages)) == Err(Incomplete(TotalEntries(Accepted(Start(n), pages)), n))
  {
    FeedKeepsExactlyTheAcceptedPages(n, pages);
  }

  // ---------------------------------------------------------------- round trip

  lemma {:induction false} DistinctMultiplicity<T(!new)>(s: seq<T>, x: T)
    requires NoDuplicates(s)
    ensures multiset(s)[x] == if x in s then 1 else 0
  {
    if s == [] {
    } else {
      var last := |s| - 1;
      assert s == s[..last] + [s[last]];
      DistinctMultiplicity(s[..last], x);
    }
  }

  lemma SameElementsSameMultiset<T(!new)>(s: seq<T>, t: seq<T>)
    requires NoDuplicates(s) && NoDuplicates(t)
    requires forall x :: x in s <==> x in t
    ensures multiset(s) == multiset(t)
  {
    forall x: T
      ensures multiset(s)[x] == multiset(t)[x]
    {
      DistinctMultiplicity(s, x);
      DistinctMultiplicity(t, x);
    }
  }

  predicate IsPageOf(lens: seq<u64>, page: Page)
    requires Addressable(lens)
  {
    SlotOf(page) < PageCount(|lens|) && page == SlotPage(lens, SlotOf(page))
  }

  lemma SplitHasNoDuplicates(lens: seq<u64>)
    requires Addressable(lens)
    ensures NoDuplicates(SplitChunkLensPages(lens))
    ensures forall page :: page in SplitChunkLensPages(lens) <==> IsPageOf(lens, page)
  {
    SplitIsTiling(lens);
    forall page
      ensures page in SplitChunkLensPages(lens) <==> IsPageOf(lens, page)
    {
      if IsPageOf(lens, page) {
        assert SplitChunkLensPages(lens)[SlotOf(page)] == page;
      }
    }
  }

  lemma SamePagesSameLayout(x: seq<u64>, y: seq<u64>)
    requires |x| == |y| <= MAX_RESOURCE_CHUNK_COUNT
    requires forall slot :: 0 <= slot < PageCount(|x|) ==> SlotPage(x, slot) == SlotPage(y, slot)
    ensures x == y
  {
    forall i | 0 <= i < |x|
      ensures x[i] == y[i]
    {
      var slot := i / MAX_CHUNK_LENS_PER_FRAME;
      var k := i % MAX_CHUNK_LENS_PER_FRAME;
      assert SlotPage(x, slot).entries[k] == SlotPage(y, slot).entries[k];
    }
  }

  lemma YieldedLayoutCameFromItsPages(x: seq<u64>, a: Assembly, got: seq<Page>)
    requires |x| <= MAX_RESOURCE_CHUNK_COUNT && Remembers(a, got) && Yield(a) == Ok(x)
    ensures multiset(got) == multiset(SplitChunkLensPages(x))
  {
    SplitHasNoDuplicates(x);
    AllFilledWhenCountIsFull(a.filled);
    forall page
      ensures page in got <==> page in SplitChunkLensPages(x)
    {
      if page in got {
        assert HeldIn(a, page);
      }
      if IsPageOf(x, page) {
        assert SlotPage(a.lens, SlotOf(page)) in got;
      }
    }
    SameElementsSameMultiset(got, SplitChunkLensPages(x));
  }

  lemma PagesOfLayoutYieldIt(x: seq<u64>, a: Assembly, got: seq<Page>)
    requires |x| == |a.lens| <= MAX_RESOURCE_CHUNK_COUNT && Remembers(a, got)
    requires multiset(got) == multiset(SplitChunkLensPages(x))
    ensures Yield(a) == Ok(x)
  {
    SplitIsTiling(x);
    SplitHasNoDuplicates(x);
    AllFilledWhenCountIsFull(a.filled);
    assert |multiset(got)| == |got| && |multiset(SplitChunkLensPages(x))| == PageCount(|x|);
    forall slot | 0 <= slot < PageCount(|x|)
      ensures SlotPage(a.lens, slot) == SlotPage(x, slot)
    {
      var page := SlotPage(a.lens, slot);
      assert page in multiset(got);
      assert IsPageOf(x, page) && SlotOf(page) == slot;
    }
    SamePagesSameLayout(a.lens, x);
  }

  /** The paged prologue round trip, both ways: an assembler for |x| entries yields the layout
    * `x` if and only if the pages it accepted are the pages of `x`, in some order. Whatever
    * else was fed in between was rejected and left no trace.
    */
  lemma YieldsLayoutIffItsPagesWereAccepted(x: seq<u64>, pages: seq<Page>)
    requires |x| <= MAX_RESOURCE_CHUNK_COUNT
    ensures Yield(Feed(Start(|x|), pages)) == Ok(x)
      <==> multiset(Accepted(Start(|x|), pages)) == multiset(SplitChunkLensPages(x))
  {
    var a, got := Feed(Start(|x|), pages), Accepted(Start(|x|), pages);
    FeedKeepsExactlyTheAcceptedPages(|x|, pages);
    if Yield(a) == Ok(x) {
      YieldedLayoutCameFromItsPages(x, a, got);
    } else if multiset(got) == multiset(SplitChunkLensPages(x)) {
      PagesOfLayoutYieldIt(x, a, got);
    }
  }

  /** The pages of `pages` at the marked positions. */
  function Kept(pages: seq<Page>, keep: seq<bool>): seq<Page>
    requires |keep| == |pages|
    decreases |pages|
  {
    if pages == [] then []
    else
      var last := |pages| - 1;
      Kept(pages[..last], keep[..last]) + if keep[last] then [pages[last]] else []
  }

  /** Every unmarked page is rejected at the moment it is fed. */
  predicate OthersRejected(a: Assembly, pages: seq<Page>, keep: seq<bool>)
    requires Shaped(a) && |keep| == |pages|
    decreases |pages|
  {
    pages != [] ==>
      var last := |pages| - 1;
      OthersRejected(a, pages[..last], keep[..last]) && (keep[last] || !LastAccepted(a, pages))
  }

  lemma NextPageOfLayoutFits(x: seq<u64>, a: Assembly, got: seq<Page>, page: Page)
    requires |x| == |a.lens| <= MAX_RESOURCE_CHUNK_COUNT && Remembers(a, got)
    requires multiset(got + [page]) <= multiset(SplitChunkLensPages(x))
    ensures Rejection(a, page).None?
  {
    var split := SplitChunkLensPages(x);
    SplitHasNoDuplicates(x);
    assert page in multiset(got + [page]);
    assert page in split && IsPageOf(x, page);
    var slot := SlotOf(page);
    if a.filled[slot] {
      var held := SlotPage(a.lens, slot);
      assert held in got + [page];
      assert held in multiset(got + [page]);
      assert IsPageOf(x, held) && SlotOf(held) == slot;
      DistinctMultiplicity(split, page);
    }
    assert FitsSlot(a, page, slot);
    AcceptedExactlyWhenFits(a, page);
  }

  lemma {:induction false} KeptPagesAreAccepted(x: seq<u64>, pages: seq<Page>, keep: seq<bool>)
    requires |x| <= MAX_RESOURCE_CHUNK_COUNT && |keep| == |pages|
    requires multiset(Kept(pages, keep)) <= multiset(SplitChunkLensPages(x))
    requires OthersRejected(Start(|x|), pages, keep)
    ensures Accepted(Start(|x|), pages) == Kept(pages, keep)
    decreases |pages|
  {
    if pages == [] {
    } else {
      var last := |pages| - 1;
      var before, marked := pages[..last], keep[..last];
      KeptPagesAreAccepted(x, before, marked);
      if keep[last] {
        FeedKeepsExactlyTheAcceptedPages(|x|, before);
        NextPageOfLayoutFits(x, Feed(Start(|x|), before), Kept(before, marked), pages[last]);
      }
    }
  }

  /** Feeding the pages of any layout in any permutation, with rejected pages interleaved
    * anywhere, accepts exactly those pages and yields exactly that layout.
    */
  lemma RoundTripInAnyOrder(x: seq<u64>, pages: seq<Page>, keep: seq<bool>)
    requires |x| <= MAX_RESOURCE_CHUNK_COUNT && |keep| == |pages|
    requires multiset(Kept(pages, keep)) == multiset(SplitChunkLensPages(x))
    requires OthersRejected(Start(|x|), pages, keep)
    ensures Accepted(Start(|x|), pages) == Kept(pages, keep)
    ensures Yield(Feed(Start(|x|), pages)) == Ok(x)
  {
    KeptPagesAreAccepted(x, pages, keep);
    YieldsLayoutIffItsPagesWereAccepted(x, pages);
  }

  // ---------------------------------------------------------------- the assembler in place

  class ChunkLensAssembler {
    var lens: array<u64>
    var filled: array<bool>
    var filledPages: nat

    function Model(): Assembly
      reads this, lens, filled
    {
      Assembly(lens[..], filled[..], filledPages)
    }

    ghost predicate Valid()
      reads this, lens, filled
    {
      Shaped(Model())
    }

    constructor (chunkCount: nat)
      requires chunkCount <= MAX_RESOURCE_CHUNK_COUNT
      ensures Valid() && Model() == Start(chunkCount) && fresh(lens) && fresh(filled)
    {
      lens := new u64[chunkCount](_ => 0);
      filled := new bool[PageCount(chunkCount)](_ => false);
      filledPages := 0;
    }

    /** Refuses an oversized count before reserving anything; whether a reservation succeeds
      * is up to the host.
      */
    static method New(chunkCount: nat, lensReserved: bool, flagsReserved: bool)
        returns (r: Result<ChunkLensAssembler, ChunkLensError>)
      ensures chunkCount > 1_048_576 ==> r == Err(ChunkCountTooLarge(chunkCount))
      ensures chunkCount <= 1_048_576 && !lensReserved ==> r == Err(AllocationFailed(chunkCount, 8 * chunkCount))
      ensures chunkCount <= 1_048_576 && lensReserved && !flagsReserved ==>
        r == Err(AllocationFailed(chunkCount, (chunkCount + 2047) / 2048))
      ensures r.Ok? <==> chunkCount <= 1_048_576 && lensReserved && flagsReserved
      ensures r.Ok? ==> fresh(r.value) && r.value.Valid() && r.value.Model() == Start(chunkCount)
    {
      if chunkCount > MAX_RESOURCE_CHUNK_COUNT {
        return Err(ChunkCountTooLarge(chunkCount));
      }
      if !lensReserved {
        return Err(AllocationFailed(chunkCount, chunkCount * 8));
      }
      if !flagsReserved {
        return Err(AllocationFailed(chunkCount, PageCount(chunkCount)));
      }
      var assembler := new ChunkLensAssembler(chunkCount);
      return Ok(assembler);
    }

    method AcceptPage(page: Page) returns (r: Option<ChunkLensError>)
      requires Valid()
      modifies this`filledPages, lens, filled
      ensures Valid() && Model() == Offer(old(Model()), page)
      ensures r == Rejection(old(Model()), page)
    {
      var chunkCount, offset, size := lens.Length, page.offset, |page.entries|;
      if size == 0 {
        return Some(EmptyPage(offset));
      }
      if size > MAX_CHUNK_LENS_PER_FRAME {
        return Some(PageTooLarge(size));
      }
      if offset % MAX_CHUNK_LENS_PER_FRAME != 0 {
        return Some(MisalignedOffset(offset));
      }
      if offset >= chunkCount {
        return Some(OffsetOutOfRange(offset, chunkCount));
      }
      var start := offset;
      var end := start + size;
      if end > chunkCount {
        return Some(PageExtendsPastEnd(offset, size, chunkCount));
      }
      var expected := Min(MAX_CHUNK_LENS_PER_FRAME, chunkCount - start);
      if size != expected {
        return Some(UnexpectedPageLength(offset, size, expected));
      }
      var slot := start / MAX_CHUNK_LENS_PER_FRAME;
      if filled[slot] {
        return Some(DuplicatePage(offset));
      }
      forall i | start <= i < end {
        lens[i] := page.entries[i - start];
      }
      filled[slot] := true;
      filledPages := filledPages + 1;
      assert lens[..] == old(lens[..])[..start] + page.entries + old(lens[..])[end..];
      return None;
    }

    method IntoChunkLens() returns (r: Result<seq<u64>, ChunkLensError>)
      requires Valid()
      ensures r == Yield(Model())
    {
      if filledPages != filled.Length {
        var have := 0;
        for slot := 0 to filled.Length
          invariant have == FilledEntries(Model(), slot)
        {
          if filled[slot] {
            var start := slot * MAX_CHUNK_LENS_PER_FRAME;
            have := have + Min(MAX_CHUNK_LENS_PER_FRAME, lens.Length - start);
          }
        }
        return Err(Incomplete(have, lens.Length));
      }
      return Ok(lens[..]);
    }
  }
}
