module Arena {
  /**
   The bump allocator of the RPC server: a list of pages in use, the newest at the head, a
   list of free pages, and recycling of the former into the latter. Pages are numbered in
   the order in which the page allocator delivered them; `next` holds such numbers.
   */

  import opened Wrappers
  import opened ModArithmetic

  const PageSize := 2048

  const PageAlign := 8

  /** `live` until the page is given back to the page allocator. */
  datatype Page = Page(next: Option<nat>, size: nat, offset: nat, address: nat, live: bool)

  /** What `Alloc` handed out, by absolute addresses. */
  datatype Region = Region(at: nat, size: nat, align: nat)

  // ---------------------------------------------------------------------------
  // Alignment and lists
  // ---------------------------------------------------------------------------

  function UpperAlign(offset: nat, align: nat): nat
    requires align > 0
  {
    offset + (align - offset % align) % align
  }

  lemma UpperAlignIsLeast(offset: nat, align: nat)
    requires align > 0
    ensures UpperAlign(offset, align) % align == 0 && offset <= UpperAlign(offset, align) < offset + align
  {
    var r := offset % align;
    if r == 0 {
      ModUnique(align, align, 1, 0);
    } else {
      ModUnique(align - r, align, 0, align - r);
      assert offset + (align - r) == (offset / align + 1) * align;
      Divides(offset + (align - r), align, offset / align + 1);
    }
  }

  /** Following `next` from `first` visits just the pages of `list`, in order. */
  predicate Links(pages: seq<Page>, first: Option<nat>, list: seq<nat>)
    decreases |list|
  {
    if list == [] then first.None?
    else first == Some(list[0]) && list[0] < |pages| && Links(pages, pages[list[0]].next, list[1..])
  }

  lemma {:induction false} LinksFrame(pages: seq<Page>, pages': seq<Page>, first: Option<nat>, list: seq<nat>)
    requires Links(pages, first, list) && |pages| <= |pages'|
    requires forall p <- list :: p < |pages| ==> pages'[p].next == pages[p].next
    ensures Links(pages', first, list)
    decreases |list|
  {
    if list != [] { LinksFrame(pages, pages', pages[list[0]].next, list[1..]); }
  }

  /** A page with a list hung behind it. */
  lemma LinksOne(pages: seq<Page>, pages': seq<Page>, p: nat, second: Option<nat>, b: seq<nat>)
    requires Links(pages, second, b) && p < |pages| == |pages'| && p !in b && pages'[p].next == second
    requires forall q | 0 <= q < |pages| && q != p :: pages'[q].next == pages[q].next
    ensures Links(pages', Some(p), [p] + b)
  {
    LinksFrame(pages, pages', second, b);
    assert ([p] + b)[1..] == b;
  }

  /** Two lists joined by the last link of the first. */
  lemma {:induction false} LinksJoin(pages: seq<Page>, pages': seq<Page>, first: Option<nat>, a: seq<nat>,
      second: Option<nat>, b: seq<nat>)
    requires Links(pages, first, a) && Links(pages, second, b) && a != [] && |pages'| == |pages| && Distinct(a + b)
    requires forall p | 0 <= p < |pages| ::
               pages'[p].next == if p == a[|a| - 1] then second else pages[p].next
    ensures Links(pages', first, a + b)
    decreases |a|
  {
    DistinctTail(a + b);
    assert (a + b)[1..] == a[1..] + b;
    if |a| == 1 {
      assert a == [a[0]] && a[1..] + b == b;
      LinksOne(pages, pages', a[0], second, b);
    } else {
      assert a[0] != a[|a| - 1] by { assert (a + b)[0] != (a + b)[|a| - 1]; }
      LinksJoin(pages, pages', pages[a[0]].next, a[1..], second, b);
    }
  }

  predicate Distinct(list: seq<nat>) { forall i, j | 0 <= i < j < |list| :: list[i] != list[j] }

  lemma DistinctTail(list: seq<nat>)
    requires Distinct(list) && list != []
    ensures Distinct(list[1..]) && list[0] !in list[1..]
  {
  }

  /** Neither ranges of addresses overlap. */
  predicate Apart(at: nat, size: nat, at': nat, size': nat) { at + size <= at' || at' + size' <= at }

  // ---------------------------------------------------------------------------
  // The state of the arena
  // ---------------------------------------------------------------------------

  /** Every live page is in one of the two lists, once; the tail is the last page of the active list. */
  predicate ListsOk(
    pages: seq<Page>, head: Option<nat>, tail: nat, freeList: Option<nat>, active: seq<nat>, free: seq<nat>)
  {
    && Links(pages, head, active) && Links(pages, freeList, free) && Distinct(active + free)
    && (active != [] ==> tail == active[|active| - 1])
    && (forall p <- active + free :: p < |pages|)
    && forall p | 0 <= p < |pages| :: pages[p].live <==> p in active + free
  }

  predicate PageOk(page: Page, header: nat) {
    header <= page.offset <= page.size && page.size % PageSize == 0 && page.address % PageAlign == 0
  }

  predicate PagesOk(pages: seq<Page>, header: nat) {
    && (forall p | 0 <= p < |pages| && pages[p].live :: PageOk(pages[p], header))
    && forall p, q | 0 <= p < q < |pages| && pages[p].live && pages[q].live
         :: Apart(pages[p].address, pages[p].size, pages[q].address, pages[q].size)
  }

  /** A region is aligned and lies in its page, behind the header and before the offset. */
  predicate InPage(r: Region, page: Page, header: nat) {
    && page.address + header <= r.at && r.at + r.size <= page.address + page.offset
    && r.align > 0 && r.at % r.align == 0
  }

  predicate GivenOk(pages: seq<Page>, header: nat, active: seq<nat>, given: seq<Region>, home: seq<nat>) {
    && |home| == |given|
    && (forall i | 0 <= i < |given| :: home[i] in active && home[i] < |pages|
         && InPage(given[i], pages[home[i]], header))
    && forall i, j | 0 <= i < j < |given| :: Apart(given[i].at, given[i].size, given[j].at, given[j].size)
  }

  /** What the page allocator promises of a new page: aligned, and apart from the others. */
  predicate Fresh(pages: seq<Page>, address: nat, size: nat) {
    && address % PageAlign == 0
    && forall p | 0 <= p < |pages| && pages[p].live :: Apart(pages[p].address, pages[p].size, address, size)
  }

  function Rounded(min: nat): nat { (min + PageSize - 1) / PageSize * PageSize }

  lemma RoundedFits(min: nat)
    ensures min <= Rounded(min) < min + PageSize && Rounded(min) % PageSize == 0
  {
    Divides(Rounded(min), PageSize, (min + PageSize - 1) / PageSize);
  }

  /** A region at the current end of its page is apart from all earlier ones. */
  lemma GivenGrows(pages: seq<Page>, pages': seq<Page>, header: nat, active: seq<nat>, active': seq<nat>,
      given: seq<Region>, home: seq<nat>, p: nat, r: Region)
    requires PagesOk(pages', header) && GivenOk(pages, header, active, given, home) && |pages| <= |pages'|
    requires forall q <- active :: q in active' && q < |pages| && pages'[q].live
    requires forall q <- active :: pages'[q].address == pages[q].address && pages'[q].offset >= pages[q].offset
    requires p in active' && p < |pages'| && pages'[p].live && InPage(r, pages'[p], header)
    requires p in active ==> pages[p].address + pages[p].offset <= r.at
    ensures GivenOk(pages', header, active', given + [r], home + [p])
  {
    var given', home' := given + [r], home + [p];
    forall i | 0 <= i < |given|
      ensures InPage(given[i], pages'[home[i]], header) && Apart(given[i].at, given[i].size, r.at, r.size)
    {
      assert InPage(given[i], pages[home[i]], header);
      var q := home[i];
      if q != p {
        assert PageOk(pages'[q], header) && PageOk(pages'[p], header);
        assert q < p ==> Apart(pages'[q].address, pages'[q].size, pages'[p].address, pages'[p].size);
        assert p < q ==> Apart(pages'[p].address, pages'[p].size, pages'[q].address, pages'[q].size);
      }
    }
  }

  /** An offset that is aligned within a page is so absolutely. */
  lemma AlignedInPage(address: nat, offset: nat, align: nat)
    requires align > 0 && PageAlign % align == 0 && address % PageAlign == 0 && offset % align == 0
    ensures (address + offset) % align == 0
  {
    var k := PageAlign / align;
    assert address == (address / PageAlign) * PageAlign && PageAlign == k * align;
    assert address == ((address / PageAlign) * k) * align;
    assert address + offset == ((address / PageAlign) * k + offset / align) * align;
    Divides(address + offset, align, (address / PageAlign) * k + offset / align);
  }

  /** Room for a region of that size in the page, from `from` on. */
  predicate HasRoom(page: Page, from: nat, size: nat, align: nat)
    requires align > 0
  {
    UpperAlign(from, align) + size <= page.size
  }

  class GenericArena {
    const header: nat
    var pages: seq<Page>
    var head: Option<nat>
    var tail: nat
    var freeList: Option<nat>
    ghost var active: seq<nat>
    ghost var free: seq<nat>
    ghost var given: seq<Region>
    ghost var home: seq<nat>

    ghost predicate Valid()
      reads this
    {
      && 0 < header < PageSize
      && ListsOk(pages, head, tail, freeList, active, free) && PagesOk(pages, header)
      && GivenOk(pages, header, active, given, home)
    }

    /** The first page is allocated at once. */
    constructor (header: nat, address: nat)
      requires 0 < header < PageSize && Fresh([], address, Rounded(1))
      ensures Valid() && this.header == header && active != [] && given == []
    {
      this.header := header;
      pages := [Page(None, Rounded(1), header, address, true)];
      head := Some(0);
      tail := 0;
      freeList := None;
      active := [0];
      free := [];
      given := [];
      home := [];
      new;
      RoundedFits(1);
      assert pages[0].next.None?;
    }

    /**
     The region lies apart from all that were handed out since the last recycling: at the next aligned place in
     the newest page, or at the first one in another, the first free page or a new one. A new page is asked for
     only if the region fits into neither of those two; `address` is where the page allocator puts it.
     */
    method Alloc(size: nat, align: nat, address: nat) returns (at: nat)
      requires Valid() && active != [] && align > 0 && PageAlign % align == 0
      requires Fresh(pages, address, Rounded(UpperAlign(header, align) + size))
      modifies this
      ensures Valid() && active != [] && at % align == 0
      ensures given == old(given) + [Region(at, size, align)]
      ensures forall r <- old(given) :: Apart(r.at, r.size, at, size)
      ensures var p := old(active)[0];
              if p < |old(pages)| && HasRoom(old(pages)[p], old(pages)[p].offset, size, align) then
                && active == old(active) && free == old(free)
                && at == old(pages)[p].address + UpperAlign(old(pages)[p].offset, align)
                && pages == old(pages)[p := old(pages)[p].(offset := at + size - old(pages)[p].address)]
              else NewHeadFor(old(pages), old(active), old(free), size, align, address, at)
    {
      hide UpperAlign, Rounded, Links, Distinct;
      HeadIsFirst(pages, head, active);
      var p := head.value;
      UpperAlignIsLeast(pages[p].offset, align);
      UpperAlignIsLeast(header, align);
      var offset := UpperAlign(pages[p].offset, align);
      if offset + size <= pages[p].size {
        at := BumpHead(p, offset, size, align);
      } else {
        at := NewHead(size, align, address);
      }
      forall r <- old(given) ensures Apart(r.at, r.size, at, size) {
        var i :| 0 <= i < |old(given)| && old(given)[i] == r;
        assert given[i] == r && given[|old(given)|] == Region(at, size, align);
      }
    }

    /** The rest of the newest page is large enough. */
    method BumpHead(p: nat, offset: nat, size: nat, align: nat) returns (at: nat)
      requires Valid() && active != [] && align > 0 && PageAlign % align == 0 && p == active[0] && p < |pages|
      requires pages[p].offset <= offset && offset + size <= pages[p].size && offset % align == 0
      modifies this`pages, this`given, this`home
      ensures Valid() && at % align == 0 && given == old(given) + [Region(at, size, align)]
      ensures at == old(pages)[p].address + offset && pages == old(pages)[p := old(pages)[p].(offset := offset + size)]
    {
      hide Links, Distinct;
      var page := pages[p];
      at := page.address + offset;
      assert p in active + free && page.live;
      assert PageOk(page, header);
      AlignedInPage(page.address, offset, align);
      assert forall q <- active :: q in active + free;
      var pages' := pages[p := page.(offset := offset + size)];
      LinksFrame(pages, pages', head, active);
      LinksFrame(pages, pages', freeList, free);
      assert PagesOk(pages', header);
      GivenGrows(pages, pages', header, active, active, given, home, p, Region(at, size, align));
      pages := pages';
      given := given + [Region(at, size, align)];
      home := home + [p];
    }

    /** The first free page, or else a new one, has become the head, and the region is the first in it. */
    ghost predicate NewHeadFor(
      was: seq<Page>, active: seq<nat>, free: seq<nat>, size: nat, align: nat, address: nat, at: nat)
      requires align > 0
      reads this
    {
      if free != [] && free[0] < |was| && HasRoom(was[free[0]], header, size, align) then
        && this.active == [free[0]] + active && this.free == free[1..]
        && |pages| == |was| && pages == was[free[0] := pages[free[0]]]
        && at == was[free[0]].address + UpperAlign(header, align)
      else
        && this.active == [|was|] + active && this.free == free
        && |pages| == |was| + 1 && pages[..|was|] == was
        && at == address + UpperAlign(header, align)
    }

    /** A page from the free list, or a new one, becomes the head. */
    method NewHead(size: nat, align: nat, address: nat) returns (at: nat)
      requires Valid() && active != [] && align > 0 && PageAlign % align == 0
      requires Fresh(pages, address, Rounded(UpperAlign(header, align) + size))
      modifies this
      ensures Valid() && active != [] && at % align == 0 && given == old(given) + [Region(at, size, align)]
      ensures NewHeadFor(old(pages), old(active), old(free), size, align, address, at)
    {
      hide UpperAlign, Rounded, Links, Distinct, PagesOk, GivenOk, ListsOk;
      UpperAlignIsLeast(header, align);
      var offset := UpperAlign(header, align);
      ListBounds(pages, head, tail, freeList, active, free);
      var p;
      ghost var free';
      if freeList.Some? && offset + size <= pages[freeList.value].size {
        p := freeList.value;
        free' := free[1..];
        TakenFromFree(pages, head, tail, freeList, active, free, offset + size, header);
        freeList := pages[p].next;
      } else {
        p := |pages|;
        free' := free;
        NewlyAllocated(pages, head, tail, freeList, active, free, offset + size, header, address);
        pages := pages + [Page(None, Rounded(offset + size), header, address, true)];
      }
      ghost var pages' := pages[p := pages[p].(next := head, offset := offset + size)];
      assert p == |old(pages)|
             ==> pages' == old(pages) + [Page(head, Rounded(offset + size), offset + size, address, true)];
      PageIsOk(pages', header, p);
      at := pages[p].address + offset;
      AlignedInPage(pages[p].address, offset, align);
      HeadGives(old(pages), pages', header, old(active), free', given, home, p, Region(at, size, align), offset) by {
        ListBounds(old(pages), old(head), tail, old(freeList), old(active), old(free));
      }
      pages := pages[p := pages[p].(next := head, offset := offset + size)];
      head := Some(p);
      active := [p] + active;
      free := free';
      given := given + [Region(at, size, align)];
      home := home + [p];
    }

    /** All pages but the newest become free, and that one empty. */
    method RecycleAll()
      requires Valid() && active != []
      modifies this
      ensures Valid() && given == [] && active == [old(active)[0]] && free == old(active)[1..] + old(free)
      ensures |pages| == |old(pages)| && forall p | 0 <= p < |pages| :: pages[p].live == old(pages)[p].live
    {
      hide ListsOk, PagesOk;
      RecycledLists(pages, head, tail, freeList, active, free, header);
      pages := pages[tail := pages[tail].(next := freeList)];
      freeList := pages[head.value].next;
      pages := pages[head.value := pages[head.value].(next := None)];
      pages := pages[head.value := pages[head.value].(offset := header)];
      assert pages == Recycled(old(pages), head.value, tail, old(freeList), header);
      tail := head.value;
      free := active[1..] + free;
      active := [active[0]];
      given, home := [], [];
    }

    /** Each page is given back, once. */
    method FreeAll()
      requires Valid()
      modifies this
      ensures Valid() && head.None? && freeList.None? && active == [] && free == [] && given == []
      ensures |pages| == |old(pages)| && forall p | 0 <= p < |pages| :: !pages[p].live
    {
      ListBounds(pages, head, tail, freeList, active, free);
      assert Distinct(active) && Distinct(free) by { DistinctParts(active, free); }
      assert forall p <- free :: p in active + free;
      forall p <- free ensures p !in active { PartsApart(active, free, p); }
      ghost var before := pages;
      head := FreePageList(head, active);
      LinksFrame(before, pages, freeList, free);
      freeList := FreePageList(freeList, free);
      assert forall p :: p in active + free <==> p in active || p in free;
      active, free, given, home := [], [], [], [];
    }

    method FreePageList(list: Option<nat>, ghost rest: seq<nat>) returns (list': Option<nat>)
      requires Links(pages, list, rest) && Distinct(rest) && forall p <- rest :: p < |pages| && pages[p].live
      modifies this`pages
      ensures list'.None? && |pages| == |old(pages)|
      ensures forall p | 0 <= p < |pages| :: pages[p] == old(pages)[p].(live := old(pages)[p].live && p !in rest)
    {
      list' := list;
      ghost var left := rest;
      while list'.Some?
        invariant |pages| == |old(pages)| && Links(pages, list', left) && Distinct(left)
        invariant forall p <- left :: p in rest && p < |pages| && pages[p].live
        invariant forall p | 0 <= p < |pages| ::
                    pages[p] == old(pages)[p].(live := old(pages)[p].live && (p !in rest || p in left))
        decreases |left|
      {
        var temp := list'.value;
        list' := pages[temp].next;
        DistinctTail(left);
        assert forall p <- left[1..] :: p in left;
        ghost var before := pages;
        Deallocate(temp);
        LinksFrame(before, pages, list', left[1..]);
        assert left == [temp] + left[1..];
        left := left[1..];
      }
    }

    /** A page is given back once only. */
    method Deallocate(p: nat)
      requires p < |pages| && pages[p].live
      modifies this`pages
      ensures pages == old(pages)[p := old(pages)[p].(live := false)]
    {
      pages := pages[p := pages[p].(live := false)];
    }
  }

  lemma DistinctParts(a: seq<nat>, b: seq<nat>)
    requires Distinct(a + b)
    ensures Distinct(a) && Distinct(b)
  {
    forall i, j | 0 <= i < j < |a| ensures a[i] != a[j] { assert (a + b)[i] == a[i] && (a + b)[j] == a[j]; }
    forall i, j | 0 <= i < j < |b| ensures b[i] != b[j] {
      assert (a + b)[|a| + i] == b[i] && (a + b)[|a| + j] == b[j];
    }
  }

  lemma PartsApart(a: seq<nat>, b: seq<nat>, p: nat)
    requires Distinct(a + b) && p in b
    ensures p !in a
  {
    var j :| 0 <= j < |b| && b[j] == p;
    forall i | 0 <= i < |a| ensures a[i] != p { assert (a + b)[i] == a[i] && (a + b)[|a| + j] == p; }
  }

  /** The pages after `RecycleAll`. */
  function Recycled(pages: seq<Page>, head: nat, tail: nat, freeList: Option<nat>, header: nat): seq<Page>
    requires head < |pages| && tail < |pages|
  {
    var linked := pages[tail := pages[tail].(next := freeList)];
    linked[head := linked[head].(next := None, offset := header)]
  }

  lemma RecycledPages(pages: seq<Page>, head: nat, tail: nat, freeList: Option<nat>, header: nat)
    requires PagesOk(pages, header) && head < |pages| && tail < |pages| && pages[head].live
    ensures PagesOk(Recycled(pages, head, tail, freeList, header), header)
  {
    hide Apart;
    assert PageOk(pages[head], header);
  }

  /** The chain from the head, once the free list hangs at its end. */
  lemma RecycledChain(pages: seq<Page>, head: Option<nat>, tail: nat, freeList: Option<nat>, active: seq<nat>,
      free: seq<nat>)
    requires ListsOk(pages, head, tail, freeList, active, free) && active != [] && tail < |pages|
    ensures var linked := pages[tail := pages[tail].(next := freeList)];
            && head == Some(active[0]) && active[0] < |pages|
            && Links(linked, linked[active[0]].next, active[1..] + free)
            && active[0] !in active[1..] + free && Distinct(active[1..] + free)
  {
    var linked := pages[tail := pages[tail].(next := freeList)];
    LinksJoin(pages, linked, head, active, freeList, free);
    HeadIsFirst(linked, head, active + free);
    assert (active + free)[1..] == active[1..] + free;
    DistinctTail(active + free);
  }

  lemma RecycledLists(pages: seq<Page>, head: Option<nat>, tail: nat, freeList: Option<nat>, active: seq<nat>,
      free: seq<nat>, header: nat)
    requires ListsOk(pages, head, tail, freeList, active, free) && PagesOk(pages, header) && active != []
    ensures head.Some? && head.value == active[0] < |pages| && tail < |pages|
    ensures var linked := pages[tail := pages[tail].(next := freeList)];
            var pages' := Recycled(pages, head.value, tail, freeList, header);
            ListsOk(pages', head, head.value, linked[head.value].next, [active[0]], active[1..] + free)
                && PagesOk(pages', header)
  {
    assert tail in active;
    ListBounds(pages, head, tail, freeList, active, free);
    HeadIsFirst(pages, head, active);
    var h := active[0];
    RecycledPages(pages, h, tail, freeList, header);
    RecycledChain(pages, head, tail, freeList, active, free);
    hide PagesOk;
    var linked := pages[tail := pages[tail].(next := freeList)];
    var pages' := Recycled(pages, h, tail, freeList, header);
    LinksFrame(linked, pages', linked[h].next, active[1..] + free);
    assert Links(pages', None, [h][1..]);
    assert [h] + (active[1..] + free) == active + free;
  }

  lemma PageIsOk(pages: seq<Page>, header: nat, p: nat)
    requires PagesOk(pages, header) && p < |pages| && pages[p].live
    ensures PageOk(pages[p], header)
  {
  }

  lemma ListBounds(pages: seq<Page>, head: Option<nat>, tail: nat, freeList: Option<nat>, active: seq<nat>,
      free: seq<nat>)
    requires ListsOk(pages, head, tail, freeList, active, free)
    ensures forall p <- active :: p < |pages| && pages[p].live
    ensures freeList.Some? ==>
              && free != [] && freeList == Some(free[0])
              && freeList.value < |pages| && pages[freeList.value].live
    ensures freeList.Some? ==> freeList.value !in active
    ensures (head.Some? <==> active != []) && (freeList.Some? <==> free != [])
  {
    assert forall p <- active :: p in active + free;
    assert forall p <- free :: p in active + free;
    if freeList.Some? {
      forall i | 0 <= i < |active| ensures active[i] != free[0] {
        assert (active + free)[i] == active[i] && (active + free)[|active|] == free[0];
      }
    }
  }

  lemma DistinctMoves(a: seq<nat>, p: nat, b: seq<nat>)
    requires Distinct(a + ([p] + b))
    ensures Distinct(([p] + a) + b)
  {
    var l, l' := a + ([p] + b), ([p] + a) + b;
    forall i, j | 0 <= i < j < |l'| ensures l'[i] != l'[j] {
      var f := (k: int) => if k == 0 then |a| else if k <= |a| then k - 1 else k;
      assert l'[i] == l[f(i)] && l'[j] == l[f(j)];
    }
  }

  /** Turning the first free page into the head. */
  lemma TakenFromFree(pages: seq<Page>, head: Option<nat>, tail: nat, freeList: Option<nat>, active: seq<nat>,
      free: seq<nat>, end: nat, header: nat)
    requires ListsOk(pages, head, tail, freeList, active, free) && PagesOk(pages, header) && active != []
    requires freeList.Some? && freeList.value < |pages| && header <= end <= pages[freeList.value].size
    ensures var p := freeList.value;
            var pages' := pages[p := pages[p].(next := head, offset := end)];
            ListsOk(pages', Some(p), tail, pages[p].next, [p] + active, free[1..]) && PagesOk(pages', header)
  {
    hide Apart;
    ListBounds(pages, head, tail, freeList, active, free);
    var p := freeList.value;
    var pages' := pages[p := pages[p].(next := head, offset := end)];
    assert free == [p] + free[1..];
    DistinctMoves(active, p, free[1..]);
    NotAgain(active, p, free[1..]);
    LinksFrame(pages, pages', head, active);
    LinksFrame(pages, pages', pages[p].next, free[1..]);
    assert ([p] + active)[1..] == active;
    assert forall q :: q in active + free <==> q in ([p] + active) + free[1..];
    assert PageOk(pages[p], header);
  }

  lemma NotAgain(a: seq<nat>, p: nat, b: seq<nat>)
    requires Distinct(a + ([p] + b))
    ensures p !in a && p !in b
  {
    var l := a + ([p] + b);
    assert l[|a|] == p;
    forall i | 0 <= i < |a| ensures a[i] != p { assert l[i] == a[i]; }
    forall i | 0 <= i < |b| ensures b[i] != p { assert l[|a| + 1 + i] == b[i]; }
  }

  /** Turning a new page into the head. */
  lemma NewlyAllocated(pages: seq<Page>, head: Option<nat>, tail: nat, freeList: Option<nat>, active: seq<nat>,
      free: seq<nat>, end: nat, header: nat, address: nat)
    requires ListsOk(pages, head, tail, freeList, active, free) && PagesOk(pages, header) && active != []
    requires Fresh(pages, address, Rounded(end)) && header <= end
    ensures var pages' := pages + [Page(head, Rounded(end), end, address, true)];
            ListsOk(pages', Some(|pages|), tail, freeList, [|pages|] + active, free) && PagesOk(pages', header)
    ensures end <= Rounded(end)
  {
    RoundedFits(end);
    hide Rounded, Apart;
    var p, pages' := |pages|, pages + [Page(head, Rounded(end), end, address, true)];
    LinksFrame(pages, pages', head, active);
    LinksFrame(pages, pages', freeList, free);
    assert ([p] + active)[1..] == active;
    assert ([p] + active) + free == [p] + (active + free);
    forall i | 0 <= i < |active + free| ensures (active + free)[i] < p { assert (active + free)[i] in active + free; }
    assert Distinct([p] + (active + free));
    forall q | 0 <= q < |pages'| ensures pages'[q].live <==> q in ([p] + active) + free { }
  }

  /** The new head's first region. */
  lemma HeadGives(pages: seq<Page>, pages': seq<Page>, header: nat, active: seq<nat>, free: seq<nat>,
      given: seq<Region>, home: seq<nat>, p: nat, r: Region, offset: nat)
    requires PagesOk(pages', header) && GivenOk(pages, header, active, given, home) && |pages| <= |pages'|
    requires forall q <- active :: q < |pages| && pages[q].live && q != p && pages'[q] == pages[q]
    requires p < |pages'| && pages'[p].live && header <= offset && pages'[p].offset == offset + r.size
    requires r.at == pages'[p].address + offset && r.align > 0 && r.at % r.align == 0
    ensures GivenOk(pages', header, [p] + active, given + [r], home + [p])
  {
    GivenGrows(pages, pages', header, active, [p] + active, given, home, p, r);
  }

  lemma HeadIsFirst(pages: seq<Page>, first: Option<nat>, list: seq<nat>)
    requires Links(pages, first, list) && list != []
    ensures first == Some(list[0]) && list[0] < |pages| && Links(pages, pages[list[0]].next, list[1..])
  {
  }
}
