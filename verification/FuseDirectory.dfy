/**
  Directory paging of the FUSE provider: each reply holds as many entries as fit, every entry
  carries the offset to continue from, and entries whose node is gone are passed over.
 */
module FuseDirectory {
  import opened Status

  const MAX_REPLY: nat := 4 * 1024 * 1024

  datatype Node = Node(inode: nat, parent: nat, name: string)

  /** An entry as replied: its name, its inode and the offset that follows it. */
  datatype Entry = Entry(name: string, inode: nat, next: nat)

  /**
    An open directory: the node table, its own node, and the inodes cached when it was read.
    `size` is the space one entry takes in a reply, by its name.
   */
  datatype Directory = Directory(nodes: map<nat, Node>, self: nat, cached: seq<nat>, size: string -> nat)

  function Total(d: Directory): nat { |d.cached| + 2 }

  /** The entry at a position, or none if its node is gone. */
  function At(d: Directory, position: nat): Option<Entry>
    requires d.self in d.nodes && position < Total(d)
  {
    var own := d.nodes[d.self];
    if position == 0 then Some(Entry(".", own.inode, 1))
    else if position == 1 then
      Some(Entry("..", if own.parent in d.nodes then d.nodes[own.parent].inode else own.inode, 2))
    else if d.cached[position - 2] in d.nodes then
      var node := d.nodes[d.cached[position - 2]];
      Some(Entry(node.name, node.inode, position + 1))
    else None
  }

  /** Everything from a position on. */
  function All(d: Directory, position: nat): (entries: seq<Entry>)
    requires d.self in d.nodes
    decreases Total(d) - position
  {
    if position >= Total(d) then []
    else (if At(d, position).Some? then [At(d, position).value] else []) + All(d, position + 1)
  }

  /** As much of it as fits. */
  function Page(d: Directory, position: nat, room: nat): seq<Entry>
    requires d.self in d.nodes
    decreases Total(d) - position
  {
    if position >= Total(d) then []
    else
      match At(d, position)
      case None => Page(d, position + 1, room)
      case Some(entry) =>
        if d.size(entry.name) > room then []
        else [entry] + Page(d, position + 1, room - d.size(entry.name))
  }

  function Capacity(requested: nat): nat { if requested > MAX_REPLY then MAX_REPLY else requested }

  datatype Reply = Stale | Entries(page: seq<Entry>)

  /** One readdir reply. */
  method ReplyDirectory(d: Directory, offset: int, requested: nat) returns (reply: Reply)
    ensures reply == if offset < 0 || d.self !in d.nodes then Stale else Entries(Page(d, offset, Capacity(requested)))
  {
    if d.self !in d.nodes || offset < 0 {
      return Stale;
    }
    var capacity := if requested > MAX_REPLY then MAX_REPLY else requested;
    var buffer: seq<Entry> := [];
    var used := 0;
    var position: nat := offset;
    ghost var whole := Page(d, offset, capacity);
    while position < Total(d)
      invariant used <= capacity
      invariant whole == buffer + Page(d, position, capacity - used)
      decreases Total(d) - position
    {
      var entry := At(d, position);
      if entry.Some? {
        var size := d.size(entry.value.name);
        if size > capacity - used {
          break;
        }
        buffer := buffer + [entry.value];
        used := used + size;
      }
      position := position + 1;
    }
    return Entries(buffer);
  }

  /** A page is a prefix of what is left, and its last entry says where the rest begins. */
  lemma {:induction false} PageIsPrefix(d: Directory, position: nat, room: nat)
    requires d.self in d.nodes
    ensures var page := Page(d, position, room);
      page != [] ==>
        && position < page[|page| - 1].next <= Total(d)
        && All(d, position) == page + All(d, page[|page| - 1].next)
    decreases Total(d) - position
  {
    if position < Total(d) {
      match At(d, position)
      case None => PageIsPrefix(d, position + 1, room);
      case Some(entry) =>
        if d.size(entry.name) <= room {
          var rest := Page(d, position + 1, room - d.size(entry.name));
          PageIsPrefix(d, position + 1, room - d.size(entry.name));
          if rest != [] {
            assert Page(d, position, room)[|rest|] == rest[|rest| - 1];
          }
        }
    }
  }

  /** A page is empty exactly when nothing is left or the next entry does not fit. */
  lemma {:induction false} PageEmptyIff(d: Directory, position: nat, room: nat)
    requires d.self in d.nodes
    ensures Page(d, position, room) == [] <==>
      All(d, position) == [] || d.size(All(d, position)[0].name) > room
    decreases Total(d) - position
  {
    if position < Total(d) {
      var rest := All(d, position + 1);
      if At(d, position).None? {
        PageEmptyIff(d, position + 1, room);
        assert All(d, position) == rest;
      } else {
        assert All(d, position)[0] == At(d, position).value;
      }
    }
  }

  /** Read page after page, the i-th with room for `sizes(i)` bytes, until a page comes back empty. */
  function Follow(d: Directory, sizes: nat -> nat, i: nat, position: nat): seq<Entry>
    requires d.self in d.nodes
    decreases Total(d) - position
  {
    var page := Page(d, position, Capacity(sizes(i)));
    PageIsPrefix(d, position, Capacity(sizes(i)));
    if page == [] then [] else page + Follow(d, sizes, i + 1, page[|page| - 1].next)
  }

  /** Every page has room for whichever entry comes next. */
  ghost predicate RoomForOne(d: Directory, sizes: nat -> nat)
    requires d.self in d.nodes
  {
    forall i: nat, position: nat | position < Total(d) && At(d, position).Some? ::
      d.size(At(d, position).value.name) <= Capacity(sizes(i))
  }

  lemma {:induction false} FirstIsLive(d: Directory, position: nat) returns (p: nat)
    requires d.self in d.nodes && All(d, position) != []
    ensures position <= p < Total(d) && At(d, p) == Some(All(d, position)[0])
    decreases Total(d) - position
  {
    if At(d, position).Some? {
      p := position;
    } else {
      assert [] + All(d, position + 1) == All(d, position + 1);
      p := FirstIsLive(d, position + 1);
    }
  }

  /** Following the offsets yields everything from the start position on, in order. */
  lemma {:induction false} FollowIsAll(d: Directory, sizes: nat -> nat, i: nat, position: nat)
    requires d.self in d.nodes && RoomForOne(d, sizes)
    ensures Follow(d, sizes, i, position) == All(d, position)
    decreases Total(d) - position
  {
    var page := Page(d, position, Capacity(sizes(i)));
    PageIsPrefix(d, position, Capacity(sizes(i)));
    PageEmptyIff(d, position, Capacity(sizes(i)));
    if page != [] {
      FollowIsAll(d, sizes, i + 1, page[|page| - 1].next);
    } else if All(d, position) != [] {
      var p := FirstIsLive(d, position);
      assert false;
    }
  }

  // --- How much a page holds ---

  /** The space that entries take. */
  function Space(d: Directory, entries: seq<Entry>): nat {
    if entries == [] then 0 else d.size(entries[0].name) + Space(d, entries[1..])
  }

  /** A page is the longest start of what is left that fits: with the next entry it would not. */
  ghost predicate Longest(d: Directory, page: seq<Entry>, left: seq<Entry>, room: nat) {
    && page <= left && Space(d, page) <= room
    && (|page| < |left| ==> Space(d, page) + d.size(left[|page|].name) > room)
  }

  lemma {:induction false} PageFits(d: Directory, position: nat, room: nat)
    requires d.self in d.nodes
    ensures Longest(d, Page(d, position, room), All(d, position), room)
    decreases Total(d) - position
  {
    if position < Total(d) {
      match At(d, position)
      case None =>
        PageFits(d, position + 1, room);
        assert All(d, position) == All(d, position + 1);
      case Some(entry) =>
        if d.size(entry.name) <= room {
          PageFits(d, position + 1, room - d.size(entry.name));
          LongestWith(d, entry, Page(d, position + 1, room - d.size(entry.name)), All(d, position + 1), room);
        }
    }
  }

  lemma LongestWith(d: Directory, entry: Entry, page: seq<Entry>, left: seq<Entry>, room: nat)
    requires d.size(entry.name) <= room && Longest(d, page, left, room - d.size(entry.name))
    ensures Longest(d, [entry] + page, [entry] + left, room)
  {
    assert ([entry] + page)[1..] == page;
  }

  /** What a reader sees at a position: the directory, its parent or itself, then a cached entry with a node. */
  predicate Shown(d: Directory, position: nat, e: Entry)
    requires d.self in d.nodes
  {
    && position < |d.cached| + 2 && e.next == position + 1
    && (position == 0 ==> e.name == "." && e.inode == d.nodes[d.self].inode)
    && (position == 1 ==>
          && e.name == ".."
          && (d.nodes[d.self].parent in d.nodes ==> e.inode == d.nodes[d.nodes[d.self].parent].inode)
          && (d.nodes[d.self].parent !in d.nodes ==> e.inode == d.nodes[d.self].inode))
    && (position >= 2 ==>
          && d.cached[position - 2] in d.nodes
          && e.name == d.nodes[d.cached[position - 2]].name && e.inode == d.nodes[d.cached[position - 2]].inode)
  }

  /** What is left holds exactly the entries shown from the position on. */
  lemma {:induction false} LeftIff(d: Directory, position: nat, e: Entry)
    requires d.self in d.nodes
    ensures e in All(d, position) <==> e.next > position && Shown(d, e.next - 1, e)
    decreases Total(d) - position
  {
    if position < Total(d) {
      LeftIff(d, position + 1, e);
      ShownIsAt(d, position, e);
      var head := if At(d, position).Some? then [At(d, position).value] else [];
      assert All(d, position) == head + All(d, position + 1);
    }
  }

  lemma ShownIsAt(d: Directory, position: nat, e: Entry)
    requires d.self in d.nodes && position < Total(d)
    ensures Shown(d, position, e) <==> At(d, position) == Some(e)
  {
  }

  /** They come in the order of their offsets. */
  lemma {:induction false} LeftOrdered(d: Directory, position: nat)
    requires d.self in d.nodes
    ensures Ordered(position, All(d, position))
    decreases Total(d) - position
  {
    if position < Total(d) {
      LeftOrdered(d, position + 1);
      var head := if At(d, position).Some? then [At(d, position).value] else [];
      assert All(d, position) == head + All(d, position + 1);
    }
  }

  predicate Ordered(position: nat, entries: seq<Entry>) {
    && (forall i | 0 <= i < |entries| :: position < entries[i].next)
    && forall i, j | 0 <= i < j < |entries| :: entries[i].next < entries[j].next
  }

  /** Nothing larger than four mebibytes is replied, nor larger than was asked for, and no less than fits in that. */
  lemma ReplyFits(d: Directory, offset: nat, requested: nat)
    requires d.self in d.nodes
    ensures Longest(d, Page(d, offset, Capacity(requested)), All(d, offset),
                    if requested < 4_194_304 then requested else 4_194_304)
  {
    PageFits(d, offset, Capacity(requested));
  }

  // --- What "everything" is ---

  function Names(entries: seq<Entry>): seq<(string, nat)> {
    if entries == [] then [] else [(entries[0].name, entries[0].inode)] + Names(entries[1..])
  }

  /** Name and inode of the cached entries that still have a node, in cache order. */
  function Live(nodes: map<nat, Node>, cached: seq<nat>): seq<(string, nat)> {
    if cached == [] then []
    else if cached[0] in nodes then [(nodes[cached[0]].name, nodes[cached[0]].inode)] + Live(nodes, cached[1..])
    else Live(nodes, cached[1..])
  }

  lemma {:induction false} TailIsLive(d: Directory, i: nat)
    requires d.self in d.nodes && i <= |d.cached|
    ensures Names(All(d, i + 2)) == Live(d.nodes, d.cached[i..])
    decreases |d.cached| - i
  {
    if i < |d.cached| {
      TailIsLive(d, i + 1);
      assert d.cached[i..][1..] == d.cached[i + 1..];
      if At(d, i + 2).Some? {
        assert All(d, i + 2)[1..] == All(d, i + 3);
      } else {
        assert All(d, i + 2) == All(d, i + 3);
      }
    }
  }

  /**
    Reading a directory page by page from offset zero, with any page sizes that each hold at
    least one entry, shows ".", "..", then every cached entry that is still there, once and in
    order, and then an empty page.
   */
  lemma ReadingShowsEverything(d: Directory, sizes: nat -> nat, room: nat)
    requires d.self in d.nodes && RoomForOne(d, sizes)
    ensures var read := Follow(d, sizes, 0, 0);
      && |read| >= 2 && read[0].name == "." && read[1].name == ".."
      && Names(read[2..]) == Live(d.nodes, d.cached)
      && Page(d, read[|read| - 1].next, room) == []
  {
    FollowIsAll(d, sizes, 0, 0);
    AllIsEverything(d, room);
  }

  lemma AllIsEverything(d: Directory, room: nat)
    requires d.self in d.nodes
    ensures var all := All(d, 0);
      && |all| >= 2 && all[0].name == "." && all[1].name == ".."
      && Names(all[2..]) == Live(d.nodes, d.cached)
      && Page(d, all[|all| - 1].next, room) == []
  {
    AllStarts(d);
    TailIsLive(d, 0);
    assert d.cached[0..] == d.cached;
    NothingAfterLast(d, 0);
    NothingToShow(d, All(d, 0)[|All(d, 0)| - 1].next, room);
  }

  lemma NothingToShow(d: Directory, position: nat, room: nat)
    requires d.self in d.nodes && All(d, position) == []
    ensures Page(d, position, room) == []
  {
    PageEmptyIff(d, position, room);
  }

  lemma AllStarts(d: Directory)
    requires d.self in d.nodes
    ensures var all := All(d, 0);
      |all| >= 2 && all[0].name == "." && all[1].name == ".." && all[2..] == All(d, 2)
  {
    assert All(d, 1) == [At(d, 1).value] + All(d, 2);
    assert All(d, 0) == [At(d, 0).value] + All(d, 1);
  }

  lemma {:induction false} NothingAfterLast(d: Directory, position: nat)
    requires d.self in d.nodes
    ensures var all := All(d, position); all != [] ==> All(d, all[|all| - 1].next) == []
    decreases Total(d) - position
  {
    if position < Total(d) {
      NothingAfterLast(d, position + 1);
      var rest := All(d, position + 1);
      assert At(d, position).None? ==> [] + rest == rest;
      assert rest != [] ==> All(d, position)[|All(d, position)| - 1] == rest[|rest| - 1];
    }
  }
}
