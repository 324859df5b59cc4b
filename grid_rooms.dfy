/**
  The room grid of a property: floors without rooms are dropped, floors are ordered by
  number and the rooms of each floor by code, all rooms are laid out in one list, the
  list is shown nine rooms per page, and each page is grouped back under its floors.
*/
module GridRooms {
  import opened Text
  import opened JsNumber
  import opened Seqs
  import opened Paging

  datatype Room = Room(id: int, code: string, status: string)

  datatype RoomsByFloor = RoomsByFloor(floorNumber: int, rooms: seq<Room>)

  /** An entry of `allRooms`: a room with the number of its floor. */
  datatype FlatRoom = FlatRoom(room: Room, floorNumber: int)

  const PageSize: nat := 9

  /** `getFloorLabel`: ordinal names for floors 1 to 8, "Piso n" otherwise. */
  function FloorLabel(n: int): string
  {
    match n
    case 1 => "Primer piso"
    case 2 => "Segundo piso"
    case 3 => "Tercer piso"
    case 4 => "Cuarto piso"
    case 5 => "Quinto piso"
    case 6 => "Sexto piso"
    case 7 => "S\U{E9}ptimo piso"
    case 8 => "Octavo piso"
    case _ => "Piso " + IntToString(n)
  }

  /** Floors 1..8 get an ordinal name, every other floor "Piso " and its number, and no two floors share a label. */
  lemma FloorLabelProperties(a: int, b: int)
    ensures !(1 <= a <= 8) ==> FloorLabel(a) == "Piso " + IntToString(a)
    ensures 1 <= a <= 8 ==> !StartsWith(FloorLabel(a), "Piso ")
    ensures FloorLabel(a) == FloorLabel(b) ==> a == b
  {
    if 1 <= a <= 8 { assert FloorLabel(a)[1] != 'i'; } else { assert FloorLabel(a)[1] == 'i'; }
    if 1 <= b <= 8 { assert FloorLabel(b)[1] != 'i'; } else { assert FloorLabel(b)[1] == 'i'; }
    if FloorLabel(a) == FloorLabel(b) && !(1 <= a <= 8) && !(1 <= b <= 8) {
      assert IntToString(a) == FloorLabel(a)[5..] == FloorLabel(b)[5..] == IntToString(b);
      IntToStringInjective(a, b);
    }
  }

  // ---------------------------------------------------------------------------
  // Ordering
  // ---------------------------------------------------------------------------

  /** The comparator on codes, given each code's `Number(code)`: numeric codes first and by value, then text order. */
  predicate CodeLe(ka: JsNum, a: string, kb: JsNum, b: string)
  {
    if ka.Num? && kb.Num? then ka.value <= kb.value
    else if ka.Num? then true
    else if kb.Num? then false
    else LexLe(a, b)
  }

  /** The rooms comparator returns a value <= 0, so a may stay before b. */
  predicate RoomLe(a: Room, b: Room)
  {
    CodeLe(ParseNumber(a.code), a.code, ParseNumber(b.code), b.code)
  }

  predicate FloorLe(a: RoomsByFloor, b: RoomsByFloor)
  {
    a.floorNumber <= b.floorNumber
  }

  lemma CodeLeTotal(ka: JsNum, a: string, kb: JsNum, b: string)
    ensures CodeLe(ka, a, kb, b) || CodeLe(kb, b, ka, a)
  {
    LexLeTotal(a, b);
  }

  lemma CodeLeTransitive(ka: JsNum, a: string, kb: JsNum, b: string, kc: JsNum, c: string)
    requires CodeLe(ka, a, kb, b) && CodeLe(kb, b, kc, c)
    ensures CodeLe(ka, a, kc, c)
  {
    if ka.NaN? && kb.NaN? && kc.NaN? {
      LexLeTransitive(a, b, c);
    }
  }

  /** The rooms comparator is consistent, so sorting by it is well defined. */
  lemma RoomLePreorder()
    ensures TotalPreorder(RoomLe)
  {
    forall a: Room, b: Room ensures RoomLe(a, b) || RoomLe(b, a) {
      CodeLeTotal(ParseNumber(a.code), a.code, ParseNumber(b.code), b.code);
    }
    forall a: Room, b: Room, c: Room | RoomLe(a, b) && RoomLe(b, c) ensures RoomLe(a, c) {
      CodeLeTransitive(ParseNumber(a.code), a.code, ParseNumber(b.code), b.code, ParseNumber(c.code), c.code);
    }
  }

  lemma FloorLePreorder()
    ensures TotalPreorder(FloorLe)
  {
  }

  /** Numeric codes come before the others, in value order; others follow in text order. */
  lemma RoomOrder(a: Room, b: Room)
    ensures ParseNumber(a.code).Num? && ParseNumber(b.code).Num? ==>
      (RoomLe(a, b) <==> ParseNumber(a.code).value <= ParseNumber(b.code).value)
    ensures ParseNumber(a.code).Num? && ParseNumber(b.code).NaN? ==> RoomLe(a, b) && !RoomLe(b, a)
    ensures ParseNumber(a.code).NaN? && ParseNumber(b.code).NaN? ==> (RoomLe(a, b) <==> LexLe(a.code, b.code))
  {
  }

  predicate HasRooms(f: RoomsByFloor) { |f.rooms| > 0 }

  /** Each floor with its rooms sorted by the rooms comparator. */
  function SortRoomsOfEach(floors: seq<RoomsByFloor>): (r: seq<RoomsByFloor>)
    ensures |r| == |floors|
    ensures forall i :: 0 <= i < |r| ==>
      r[i].floorNumber == floors[i].floorNumber
      && multiset(r[i].rooms) == multiset(floors[i].rooms)
      && SortedBy(r[i].rooms, RoomLe)
  {
    if floors == [] then []
    else
      RoomLePreorder();
      [floors[0].(rooms := SortBy(floors[0].rooms, RoomLe))] + SortRoomsOfEach(floors[1..])
  }

  /** `sortedFloors`: the floors with rooms, by floor number, each floor's rooms sorted. */
  function SortedFloors(floors: seq<RoomsByFloor>): seq<RoomsByFloor>
  {
    SortRoomsOfEach(FloorsByNumber(floors))
  }

  /** The floors with rooms in ascending floor order, rooms not yet sorted. */
  function FloorsByNumber(floors: seq<RoomsByFloor>): seq<RoomsByFloor>
  {
    FloorLePreorder();
    SortBy(Filter(floors, HasRooms), FloorLe)
  }

  /** The sorted floors all have rooms, ascend by number, each has its rooms in comparator order, and one is kept per floor with rooms. */
  lemma SortedFloorsOrdered(floors: seq<RoomsByFloor>)
    ensures var r := SortedFloors(floors);
      && (forall i, j :: 0 <= i < j < |r| ==> r[i].floorNumber <= r[j].floorNumber)
      && (forall i :: 0 <= i < |r| ==> SortedBy(r[i].rooms, RoomLe))
      && |r| == |Filter(floors, HasRooms)|
  {
    FloorLePreorder();
  }

  /** Each sorted floor is a floor of the input that has rooms, with the same rooms. */
  lemma SortedFloorsFrom(floors: seq<RoomsByFloor>)
    ensures var r := SortedFloors(floors);
      forall i :: 0 <= i < |r| ==>
        |r[i].rooms| > 0
        && (exists f :: f in floors && HasRooms(f) && f.floorNumber == r[i].floorNumber
                        && multiset(f.rooms) == multiset(r[i].rooms))
  {
    FloorLePreorder();
    var kept := Filter(floors, HasRooms);
    var s := SortBy(kept, FloorLe);
    var r := SortRoomsOfEach(s);
    forall i | 0 <= i < |r|
      ensures |r[i].rooms| > 0
      ensures (exists f :: f in floors && HasRooms(f) && f.floorNumber == r[i].floorNumber
                           && multiset(f.rooms) == multiset(r[i].rooms))
    {
      assert s[i] in multiset(s);
      assert s[i] in kept;
      assert |multiset(r[i].rooms)| == |multiset(s[i].rooms)|;
    }
  }

  /** Two floor entries with the same number and the same rooms, in any order. */
  predicate SameFloor(g: RoomsByFloor, f: RoomsByFloor)
  {
    g.floorNumber == f.floorNumber && multiset(g.rooms) == multiset(f.rooms)
  }

  /** Some entry of `r` is floor `f` with its rooms, in any order. */
  predicate ListsFloor(r: seq<RoomsByFloor>, f: RoomsByFloor)
  {
    exists i :: 0 <= i < |r| && SameFloor(r[i], f)
  }

  /** Every input floor that has rooms appears among the sorted floors with the same rooms. */
  lemma {:induction false} SortedFloorsComplete(floors: seq<RoomsByFloor>, f: RoomsByFloor)
    requires f in floors && HasRooms(f)
    ensures ListsFloor(SortedFloors(floors), f)
  {
    SortedKeeps(floors, f);
    SortRoomsOfEachHas(FloorsByNumber(floors), f);
  }

  lemma {:induction false} SortedKeeps(floors: seq<RoomsByFloor>, f: RoomsByFloor)
    requires f in floors && HasRooms(f)
    ensures f in FloorsByNumber(floors)
  {
    FloorLePreorder();
    var kept := Filter(floors, HasRooms);
    assert f in kept;
    assert f in multiset(SortBy(kept, FloorLe));
  }

  lemma {:induction false} SortRoomsOfEachHas(s: seq<RoomsByFloor>, f: RoomsByFloor)
    requires f in s
    ensures ListsFloor(SortRoomsOfEach(s), f)
  {
    var i :| 0 <= i < |s| && s[i] == f;
    var r := SortRoomsOfEach(s);
    assert SameFloor(r[i], f);
  }

  /** `allRooms`: every room of every floor, floor by floor, tagged with its floor number. */
  function AllRooms(floors: seq<RoomsByFloor>): (r: seq<FlatRoom>)
    ensures |r| == RoomCount(floors)
  {
    if floors == [] then []
    else Tag(floors[0]) + AllRooms(floors[1..])
  }

  function Tag(f: RoomsByFloor): (r: seq<FlatRoom>)
    ensures |r| == |f.rooms|
    ensures forall i :: 0 <= i < |r| ==> r[i] == FlatRoom(f.rooms[i], f.floorNumber)
  {
    seq(|f.rooms|, i requires 0 <= i < |f.rooms| => FlatRoom(f.rooms[i], f.floorNumber))
  }

  function RoomCount(floors: seq<RoomsByFloor>): nat
  {
    if floors == [] then 0 else |floors[0].rooms| + RoomCount(floors[1..])
  }

  /** Flattening keeps the rooms and their order: stripping the floor tags gives the floors' rooms end to end. */
  lemma {:induction false} AllRoomsRooms(floors: seq<RoomsByFloor>)
    ensures Untag(AllRooms(floors)) == Concat(floors)
  {
    if floors != [] {
      AllRoomsRooms(floors[1..]);
      UntagAppend(Tag(floors[0]), AllRooms(floors[1..]));
      assert Untag(Tag(floors[0])) == floors[0].rooms;
    }
  }

  function Untag(rs: seq<FlatRoom>): (r: seq<Room>)
    ensures |r| == |rs|
    ensures forall i :: 0 <= i < |rs| ==> r[i] == rs[i].room
  {
    seq(|rs|, i requires 0 <= i < |rs| => rs[i].room)
  }

  lemma UntagAppend(a: seq<FlatRoom>, b: seq<FlatRoom>)
    ensures Untag(a + b) == Untag(a) + Untag(b)
  {
  }

  function Concat(floors: seq<RoomsByFloor>): seq<Room>
  {
    if floors == [] then [] else floors[0].rooms + Concat(floors[1..])
  }

  /** The grid shows its empty state exactly when no floor has a room. */
  lemma EmptyStateExactly(floors: seq<RoomsByFloor>)
    ensures (|SortedFloors(floors)| == 0 || |AllRooms(SortedFloors(floors))| == 0)
        <==> forall i :: 0 <= i < |floors| ==> |floors[i].rooms| == 0
  {
    SortedFloorsFrom(floors);
    SortedFloorsOrdered(floors);
    var r := SortedFloors(floors);
    if |r| > 0 {
      assert |AllRooms(r)| >= |r[0].rooms| > 0;
      var f :| f in floors && HasRooms(f) && f.floorNumber == r[0].floorNumber
            && multiset(f.rooms) == multiset(r[0].rooms);
    }
  }

  // ---------------------------------------------------------------------------
  // Pages
  // ---------------------------------------------------------------------------

  /** `Math.max(1, Math.ceil(n / PAGE_SIZE))`. */
  function TotalPages(n: nat): (r: nat)
    ensures r >= 1
    ensures n > 0 ==> (r - 1) * PageSize < n <= r * PageSize
  {
    Max(1, CeilDiv(n, PageSize))
  }

  /** The rooms page `page` shows: `allRooms.slice(startIndex, startIndex + PAGE_SIZE)`. */
  function PageRooms(all: seq<FlatRoom>, page: nat): (r: seq<FlatRoom>)
    requires page >= 1
    ensures |r| <= PageSize
    ensures (page - 1) * PageSize < |all| ==> r == all[(page - 1) * PageSize .. Min(page * PageSize, |all|)]
  {
    PageSlice(all, PageSize, page)
  }

  /** The "Mostrando a – b" line. */
  function DisplayFrom(n: nat, page: nat): int
    requires page >= 1
  {
    if n == 0 then 0 else (page - 1) * PageSize + 1
  }

  function DisplayTo(n: nat, page: nat): int
    requires page >= 1
  {
    Min((page - 1) * PageSize + PageSize, n)
  }

  /** On every page from 1 to the page count, the line shows the first and last position of the rooms on that page. */
  lemma DisplayRangeMatchesPage(all: seq<FlatRoom>, page: nat)
    requires 1 <= page <= TotalPages(|all|) && |all| > 0
    ensures 1 <= DisplayFrom(|all|, page) <= DisplayTo(|all|, page) <= |all|
    ensures DisplayTo(|all|, page) - DisplayFrom(|all|, page) + 1 == |PageRooms(all, page)|
  {
    PageNotEmpty(all, PageSize, page);
  }

  /** The selected page, with the clicks and the effect that move it. */
  class Pager {
    var page: int

    constructor ()
      ensures page == 1
    {
      page := 1;
    }

    /** The effect: a page past the end moves back to the last page. */
    method Sync(totalPages: nat)
      requires page >= 1 && totalPages >= 1
      modifies this
      ensures 1 <= page <= totalPages
      ensures old(page) <= totalPages ==> page == old(page)
      ensures old(page) > totalPages ==> page == totalPages
    {
      if page > totalPages {
        page := totalPages;
      }
    }

    method Previous()
      requires page >= 1
      modifies this
      ensures old(page) > 1 ==> page == old(page) - 1
      ensures old(page) == 1 ==> page == 1
    {
      if page > 1 {
        page := page - 1;
      }
    }

    method Next(totalPages: nat)
      requires page >= 1
      modifies this
      ensures old(page) < totalPages ==> page == old(page) + 1 && page <= totalPages
      ensures old(page) >= totalPages ==> page == old(page)
    {
      if page < totalPages {
        page := page + 1;
      }
    }

    /** A page link; the links are 1 .. totalPages. */
    method Select(p: nat, totalPages: nat)
      requires 1 <= p <= totalPages
      modifies this
      ensures page == p
    {
      page := p;
    }
  }

  // ---------------------------------------------------------------------------
  // Grouping a page by floor
  // ---------------------------------------------------------------------------

  /** Position of the group of floor f, or -1. */
  function GroupIndex(groups: seq<RoomsByFloor>, f: int): (i: int)
    ensures -1 <= i < |groups|
    ensures i >= 0 ==> groups[i].floorNumber == f
    ensures i == -1 ==> forall j :: 0 <= j < |groups| ==> groups[j].floorNumber != f
  {
    if groups == [] then -1
    else if groups[|groups| - 1].floorNumber == f then |groups| - 1
    else GroupIndex(groups[..|groups| - 1], f)
  }

  /** One step of the `forEach`: the room joins its floor's entry, created at the end of the map if new. */
  function AddToGroups(groups: seq<RoomsByFloor>, fr: FlatRoom): seq<RoomsByFloor>
  {
    var k := GroupIndex(groups, fr.floorNumber);
    if k >= 0 then groups[k := groups[k].(rooms := groups[k].rooms + [fr.room])]
    else groups + [RoomsByFloor(fr.floorNumber, [fr.room])]
  }

  /** The map's values after the `forEach`, in insertion order. */
  function Groups(rs: seq<FlatRoom>): seq<RoomsByFloor>
  {
    if rs == [] then [] else AddToGroups(Groups(rs[..|rs| - 1]), rs[|rs| - 1])
  }

  /** The rooms of floor f, in page order. */
  function RoomsOn(rs: seq<FlatRoom>, f: int): seq<Room>
  {
    if rs == [] then []
    else RoomsOn(rs[..|rs| - 1], f) + (if rs[|rs| - 1].floorNumber == f then [rs[|rs| - 1].room] else [])
  }

  predicate DistinctFloors(groups: seq<RoomsByFloor>)
  {
    forall i, j :: 0 <= i < j < |groups| ==> groups[i].floorNumber != groups[j].floorNumber
  }

  /** Each entry holds exactly its floor's rooms of the page in page order, and every room's floor has one entry. */
  predicate GroupsOf(groups: seq<RoomsByFloor>, rs: seq<FlatRoom>)
  {
    && DistinctFloors(groups)
    && (forall k :: 0 <= k < |groups| ==> groups[k].rooms == RoomsOn(rs, groups[k].floorNumber))
    && (forall k :: 0 <= k < |groups| ==> |groups[k].rooms| > 0)
    && (forall j :: 0 <= j < |rs| ==> GroupIndex(groups, rs[j].floorNumber) >= 0)
  }

  lemma {:induction false} GroupsCorrect(rs: seq<FlatRoom>)
    ensures GroupsOf(Groups(rs), rs)
  {
    if rs != [] {
      var init, last := rs[..|rs| - 1], rs[|rs| - 1];
      GroupsCorrect(init);
      AddToGroupsCorrect(Groups(init), init, last);
      assert init + [last] == rs;
    }
  }

  lemma AddToGroupsCorrect(groups: seq<RoomsByFloor>, rs: seq<FlatRoom>, fr: FlatRoom)
    requires GroupsOf(groups, rs)
    ensures GroupsOf(AddToGroups(groups, fr), rs + [fr])
  {
    AddKeepsRooms(groups, rs, fr);
    AddCoversFloors(groups, rs, fr);
  }

  /** After one step every entry still holds exactly its floor's rooms so far. */
  lemma AddKeepsRooms(groups: seq<RoomsByFloor>, rs: seq<FlatRoom>, fr: FlatRoom)
    requires GroupsOf(groups, rs)
    ensures var g := AddToGroups(groups, fr);
      forall m :: 0 <= m < |g| ==> g[m].rooms == RoomsOn(rs + [fr], g[m].floorNumber)
  {
    var rs2 := rs + [fr];
    assert rs2[..|rs2| - 1] == rs;
    var g := AddToGroups(groups, fr);
    var k := GroupIndex(groups, fr.floorNumber);
    if k == -1 {
      NoRoomsWithoutGroup(groups, rs, fr.floorNumber);
    }
    forall m | 0 <= m < |g| ensures g[m].rooms == RoomsOn(rs2, g[m].floorNumber) {
      if m == k {
        assert g[m].rooms == RoomsOn(rs, fr.floorNumber) + [fr.room];
      } else if m == |groups| {
        assert g[m].rooms == [fr.room];
      } else {
        assert g[m] == groups[m];
        assert g[m].floorNumber != fr.floorNumber;
        assert RoomsOn(rs2, g[m].floorNumber) == RoomsOn(rs, g[m].floorNumber) + [];
      }
    }
  }

  /** After one step every room seen so far, the new one included, has an entry for its floor. */
  lemma AddCoversFloors(groups: seq<RoomsByFloor>, rs: seq<FlatRoom>, fr: FlatRoom)
    requires forall j :: 0 <= j < |rs| ==> GroupIndex(groups, rs[j].floorNumber) >= 0
    ensures var g, rs2 := AddToGroups(groups, fr), rs + [fr];
      forall j :: 0 <= j < |rs2| ==> GroupIndex(g, rs2[j].floorNumber) >= 0
  {
    var g, rs2 := AddToGroups(groups, fr), rs + [fr];
    var k := GroupIndex(groups, fr.floorNumber);
    forall j | 0 <= j < |rs2| ensures GroupIndex(g, rs2[j].floorNumber) >= 0 {
      var f := rs2[j].floorNumber;
      if j < |rs| {
        var q := GroupIndex(groups, f);
        assert g[q].floorNumber == f;
      } else {
        assert g[if k >= 0 then k else |groups|].floorNumber == f;
      }
    }
  }

  /** A floor with no entry has no room on the page. */
  lemma {:induction false} NoRoomsWithoutGroup(groups: seq<RoomsByFloor>, rs: seq<FlatRoom>, f: int)
    requires forall j :: 0 <= j < |rs| ==> GroupIndex(groups, rs[j].floorNumber) >= 0
    requires GroupIndex(groups, f) == -1
    ensures RoomsOn(rs, f) == []
  {
    if rs != [] {
      assert GroupIndex(groups, rs[|rs| - 1].floorNumber) >= 0;
      NoRoomsWithoutGroup(groups, rs[..|rs| - 1], f);
    }
  }

  /** A permutation of entries with distinct floors, sorted by floor, is strictly ascending. */
  lemma SortedDistinctAscending(groups: seq<RoomsByFloor>, r: seq<RoomsByFloor>)
    requires DistinctFloors(groups) && multiset(r) == multiset(groups) && SortedBy(r, FloorLe)
    ensures forall i, j :: 0 <= i < j < |r| ==> r[i].floorNumber < r[j].floorNumber
    ensures DistinctFloors(r)
  {
    assert NoDuplicates(groups);
    NoDuplicatesMultiset(groups);
    NoDuplicatesMultiset(r);
    forall i, j | 0 <= i < j < |r| ensures r[i].floorNumber != r[j].floorNumber {
      assert r[i] in multiset(groups) && r[j] in multiset(groups);
      var a :| 0 <= a < |groups| && groups[a] == r[i];
      var b :| 0 <= b < |groups| && groups[b] == r[j];
      assert r[i] != r[j];
    }
  }

  /** `paginatedRoomsByFloor`: the page's rooms grouped under their floors, floors ascending. */
  method GroupByFloor(pageRooms: seq<FlatRoom>) returns (result: seq<RoomsByFloor>)
    ensures forall i, j :: 0 <= i < j < |result| ==> result[i].floorNumber < result[j].floorNumber
    ensures GroupsOf(result, pageRooms)
  {
    var groups: seq<RoomsByFloor> := [];
    var i := 0;
    while i < |pageRooms|
      invariant 0 <= i <= |pageRooms|
      invariant groups == Groups(pageRooms[..i])
    {
      assert pageRooms[..i + 1][..i] == pageRooms[..i];
      groups := AddToGroups(groups, pageRooms[i]);
      i := i + 1;
    }
    assert pageRooms[..i] == pageRooms;
    GroupsCorrect(pageRooms);
    FloorLePreorder();
    result := SortBy(groups, FloorLe);
    SortedGroupsCorrect(groups, pageRooms, result);
  }

  /** Sorting the entries by floor keeps them the page's groups and makes the floors strictly ascending. */
  lemma SortedGroupsCorrect(groups: seq<RoomsByFloor>, rs: seq<FlatRoom>, r: seq<RoomsByFloor>)
    requires GroupsOf(groups, rs) && multiset(r) == multiset(groups) && SortedBy(r, FloorLe)
    ensures GroupsOf(r, rs)
    ensures forall i, j :: 0 <= i < j < |r| ==> r[i].floorNumber < r[j].floorNumber
  {
    SortedDistinctAscending(groups, r);
    forall k | 0 <= k < |r|
      ensures r[k].rooms == RoomsOn(rs, r[k].floorNumber) && |r[k].rooms| > 0
    {
      assert r[k] in multiset(groups);
    }
    forall j | 0 <= j < |rs| ensures GroupIndex(r, rs[j].floorNumber) >= 0 {
      var q := GroupIndex(groups, rs[j].floorNumber);
      assert groups[q] in multiset(r);
    }
  }
}
