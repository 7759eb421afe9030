/** Voice rooms (voice_room_manager.cpp): two maps that have to agree, client records and member lists. */
module VoiceRooms {
  import opened Lists

  type UserId = x: int | 0 <= x < 0x1_0000_0000

  datatype Address = Address(ip: int, port: int)

  datatype Client = Client(userId: UserId, roomId: string, address: Address, lastSeen: int)

  // ----- lists -----

  /** The list without the users outside `keep`, in the same order. */
  function Kept(s: seq<UserId>, keep: set<UserId>): (r: seq<UserId>)
    ensures forall x :: x in r <==> x in s && x in keep
  {
    if s == [] then [] else (if s[0] in keep then [s[0]] else []) + Kept(s[1..], keep)
  }

  lemma {:induction false} EraseDistinct(s: seq<UserId>, u: UserId)
    requires NoDuplicates(s)
    ensures NoDuplicates(Erase(s, u))
  {
    if s != [] {
      EraseDistinct(s[1..], u);
      var rest := Erase(s[1..], u);
      forall i | 0 <= i < |rest|
        ensures rest[i] != s[0]
      {
        assert rest[i] in s[1..];
      }
    }
  }

  lemma {:induction false} EraseKept(s: seq<UserId>, keep: set<UserId>, u: UserId)
    ensures Erase(Kept(s, keep), u) == Kept(s, keep - {u})
  {
    if s != [] {
      EraseKept(s[1..], keep, u);
      var rest := Kept(s[1..], keep);
      if s[0] in keep {
        assert ([s[0]] + rest)[1..] == rest;
      } else {
        assert [] + rest == rest;
      }
    }
  }

  lemma {:induction false} AllKept(s: seq<UserId>, keep: set<UserId>)
    requires forall x :: x in s ==> x in keep
    ensures Kept(s, keep) == s
  {
    if s != [] {
      AllKept(s[1..], keep);
    }
  }

  lemma {:induction false} NotThere(s: seq<UserId>, u: UserId)
    requires u !in s
    ensures Erase(s, u) == s
  {
    if s != [] {
      NotThere(s[1..], u);
    }
  }

  // ----- the two maps -----

  /** A user is on exactly one list, once: that of the room the user's record names; and no list is empty. */
  ghost predicate Agree(clients: map<UserId, Client>, rooms: map<string, seq<UserId>>) {
    && (forall r :: r in rooms ==> rooms[r] != [] && NoDuplicates(rooms[r]))
    && (forall r, u :: r in rooms && u in rooms[r] ==> u in clients && clients[u].roomId == r)
    && (forall u :: u in clients ==> clients[u].userId == u && Listed(clients, rooms, u))
  }

  ghost predicate Listed(clients: map<UserId, Client>, rooms: map<string, seq<UserId>>, u: UserId) {
    u in clients && clients[u].roomId in rooms && u in rooms[clients[u].roomId]
  }

  function RemovedFrom(rooms: map<string, seq<UserId>>, room: string, u: UserId): map<string, seq<UserId>> {
    if room !in rooms then rooms
    else if Erase(rooms[room], u) == [] then rooms - {room}
    else rooms[room := Erase(rooms[room], u)]
  }

  function AddedTo(rooms: map<string, seq<UserId>>, room: string, u: UserId): map<string, seq<UserId>> {
    if room !in rooms then rooms[room := [u]]
    else if u in rooms[room] then rooms
    else rooms[room := rooms[room] + [u]]
  }

  function JoinedRooms(clients: map<UserId, Client>, rooms: map<string, seq<UserId>>, u: UserId,
      room: string): map<string, seq<UserId>>
  {
    AddedTo(if u in clients && clients[u].roomId != room then RemovedFrom(rooms, clients[u].roomId, u)
        else rooms, room, u)
  }

  lemma RoomsLeft(rooms: map<string, seq<UserId>>, room: string, u: UserId)
    requires room in rooms
    ensures var after := RemovedFrom(rooms, room, u);
            && (forall r :: r in after ==> r in rooms && after[r] == if r == room then Erase(rooms[room], u)
                else rooms[r])
            && (forall r :: r in rooms && r != room ==> r in after)
            && (room in after <==> Erase(rooms[room], u) != [])
  {
    hide Erase;
  }

  lemma LeaveAgrees(clients: map<UserId, Client>, rooms: map<string, seq<UserId>>, u: UserId)
    requires Agree(clients, rooms) && u in clients
    ensures Agree(clients - {u}, RemovedFrom(rooms, clients[u].roomId, u))
  {
    hide RemovedFrom, Erase, NoDuplicates;
    var room := clients[u].roomId;
    var after, left := RemovedFrom(rooms, room, u), clients - {u};
    assert Listed(clients, rooms, u);
    RoomsLeft(rooms, room, u);
    EraseDistinct(rooms[room], u);
    forall v | v in left
      ensures Listed(left, after, v)
    {
      assert Listed(clients, rooms, v);
      if clients[v].roomId == room {
        assert v in Erase(rooms[room], u);
      }
    }
  }

  lemma AddAgrees(clients: map<UserId, Client>, rooms: map<string, seq<UserId>>, u: UserId, client: Client)
    requires Agree(clients, rooms) && client.userId == u && (u in clients ==> clients[u].roomId == client.roomId)
    ensures Agree(clients[u := client], AddedTo(rooms, client.roomId, u))
  {
    var after, all := AddedTo(rooms, client.roomId, u), clients[u := client];
    forall v | v in all
      ensures Listed(all, after, v)
    {
      assert v != u ==> Listed(clients, rooms, v);
    }
  }

  /** Moving to another room is leaving and joining. */
  lemma JoinAgrees(clients: map<UserId, Client>, rooms: map<string, seq<UserId>>, u: UserId, client: Client)
    requires Agree(clients, rooms) && client.userId == u
    ensures Agree(clients[u := client], JoinedRooms(clients, rooms, u, client.roomId))
  {
    hide Agree;
    if u in clients && clients[u].roomId != client.roomId {
      LeaveAgrees(clients, rooms, u);
      AddAgrees(clients - {u}, RemovedFrom(rooms, clients[u].roomId, u), u, client);
      assert (clients - {u})[u := client] == clients[u := client];
    } else {
      AddAgrees(clients, rooms, u, client);
    }
  }

  lemma TouchAgrees(clients: map<UserId, Client>, rooms: map<string, seq<UserId>>, u: UserId, client: Client)
    requires Agree(clients, rooms) && u in clients && client.userId == u && client.roomId == clients[u].roomId
    ensures Agree(clients[u := client], rooms)
  {
    assert forall v :: v in clients ==> Listed(clients, rooms, v);
    forall v | v in clients
      ensures Listed(clients[u := client], rooms, v)
    {
    }
  }

  // ----- addresses -----

  /** The addresses of the users of a list, in its order. */
  function Addresses(clients: map<UserId, Client>, users: seq<UserId>): (r: seq<Address>)
    requires forall x :: x in users ==> x in clients
    ensures |r| == |users| && forall i :: 0 <= i < |users| ==> r[i] == clients[users[i]].address
  {
    seq(|users|, i requires 0 <= i < |users| => assert users[i] in users; clients[users[i]].address)
  }

  /** The users still heard of. */
  ghost function Fresh(clients: map<UserId, Client>, now: int, maxIdle: int): (keep: set<UserId>)
    ensures forall u :: u in keep <==> u in clients && now - clients[u].lastSeen <= maxIdle
  {
    set u | u in clients && now - clients[u].lastSeen <= maxIdle
  }

  /** The member lists reduced to the users of `keep`, without the lists that become empty. */
  function KeptRooms(rooms: map<string, seq<UserId>>, keep: set<UserId>): map<string, seq<UserId>> {
    map r | r in rooms && Kept(rooms[r], keep) != [] :: Kept(rooms[r], keep)
  }

  lemma AllRoomsKept(clients: map<UserId, Client>, rooms: map<string, seq<UserId>>)
    requires Agree(clients, rooms)
    ensures KeptRooms(rooms, clients.Keys) == rooms
  {
    hide Kept, Listed;
    forall r | r in rooms
      ensures Kept(rooms[r], clients.Keys) == rooms[r]
    {
      AllKept(rooms[r], clients.Keys);
    }
  }

  lemma OneLess(clients: map<UserId, Client>, rooms: map<string, seq<UserId>>, keep: set<UserId>, u: UserId, r: string)
    requires Agree(clients, rooms) && u in clients && r in rooms
    ensures Kept(rooms[r], keep - {u}) == if r == clients[u].roomId then Erase(Kept(rooms[r], keep), u)
              else Kept(rooms[r], keep)
  {
    EraseKept(rooms[r], keep, u);
    if r != clients[u].roomId {
      NotThere(Kept(rooms[r], keep), u);
    }
  }

  lemma StillListed(clients: map<UserId, Client>, rooms: map<string, seq<UserId>>, keep: set<UserId>, u: UserId)
    requires Agree(clients, rooms) && u in clients && u in keep
    ensures clients[u].roomId in rooms && Kept(rooms[clients[u].roomId], keep) != []
  {
    assert Listed(clients, rooms, u);
    assert u in Kept(rooms[clients[u].roomId], keep);
  }

  lemma KeptRoom(clients: map<UserId, Client>, rooms: map<string, seq<UserId>>, keep: set<UserId>, u: UserId, r: string)
    requires Agree(clients, rooms) && u in clients && u in keep
    ensures var less, kept := RemovedFrom(KeptRooms(rooms, keep), clients[u].roomId, u), KeptRooms(rooms, keep - {u});
            (r in less <==> r in kept) && (r in less && r in kept ==> less[r] == kept[r])
  {
    hide Agree, Kept, Erase;
    StillListed(clients, rooms, keep, u);
    if r in rooms {
      OneLess(clients, rooms, keep, u, r);
    }
  }

  /** Removing one user more from the reduced lists. */
  lemma KeepOneLess(clients: map<UserId, Client>, rooms: map<string, seq<UserId>>, keep: set<UserId>, u: UserId)
    requires Agree(clients, rooms) && u in clients && u in keep
    ensures RemovedFrom(KeptRooms(rooms, keep), clients[u].roomId, u) == KeptRooms(rooms, keep - {u})
  {
    hide Agree, KeptRooms, RemovedFrom;
    var less, kept := RemovedFrom(KeptRooms(rooms, keep), clients[u].roomId, u), KeptRooms(rooms, keep - {u});
    forall r
      ensures (r in less <==> r in kept) && (r in less && r in kept ==> less[r] == kept[r])
    {
      KeptRoom(clients, rooms, keep, u, r);
    }
    assert less == kept;
  }

  /** One user more pruned. */
  lemma PruneStep(clients: map<UserId, Client>, rooms: map<string, seq<UserId>>, gone: set<UserId>, u: UserId)
    requires Agree(clients, rooms) && u in clients && u !in gone
    requires Agree(clients - gone, KeptRooms(rooms, clients.Keys - gone))
    ensures (clients - gone)[u] == clients[u] && (clients - gone) - {u} == clients - (gone + {u})
    ensures RemovedFrom(KeptRooms(rooms, clients.Keys - gone), clients[u].roomId, u) ==
              KeptRooms(rooms, clients.Keys - (gone + {u}))
    ensures Agree(clients - (gone + {u}), KeptRooms(rooms, clients.Keys - (gone + {u})))
  {
    hide Agree, KeptRooms, RemovedFrom;
    assert clients.Keys - gone - {u} == clients.Keys - (gone + {u});
    assert (clients - gone) - {u} == clients - (gone + {u});
    KeepOneLess(clients, rooms, clients.Keys - gone, u);
    LeaveAgrees(clients - gone, KeptRooms(rooms, clients.Keys - gone), u);
  }

  class VoiceRoomManager {
    var clients: map<UserId, Client>
    var rooms: map<string, seq<UserId>>

    ghost predicate Valid()
      reads this
    {
      Agree(clients, rooms)
    }

    constructor ()
      ensures Valid() && clients == map[] && rooms == map[]
    {
      clients, rooms := map[], map[];
    }

    method RemoveFromRoom(room: string, u: UserId)
      modifies this`rooms
      ensures rooms == RemovedFrom(old(rooms), room, u)
    {
      if room !in rooms {
        return;
      }
      var members := EraseAll(rooms[room], u);
      if members == [] {
        rooms := rooms - {room};
      } else {
        rooms := rooms[room := members];
      }
    }

    method Join(u: UserId, room: string, address: Address, now: int)
      requires Valid()
      modifies this
      ensures Valid()
      ensures clients == old(clients)[u := Client(u, room, address, now)]
      ensures rooms == JoinedRooms(old(clients), old(rooms), u, room)
    {
      hide Agree, RemovedFrom;
      JoinAgrees(clients, rooms, u, Client(u, room, address, now));
      if u in clients && clients[u].roomId != room {
        RemoveFromRoom(clients[u].roomId, u);
      }
      clients := clients[u := Client(u, room, address, now)];
      var members := if room in rooms then rooms[room] else [];
      if u !in members {
        assert members == [] ==> members + [u] == [u];
        rooms := rooms[room := members + [u]];
      }
    }

    method Leave(u: UserId)
      requires Valid()
      modifies this
      ensures Valid()
      ensures clients == old(clients) - {u}
      ensures rooms == if u in old(clients) then RemovedFrom(old(rooms), old(clients)[u].roomId, u) else old(rooms)
    {
      hide Agree, RemovedFrom;
      if u !in clients {
        assert clients - {u} == clients;
        return;
      }
      LeaveAgrees(clients, rooms, u);
      RemoveFromRoom(clients[u].roomId, u);
      clients := clients - {u};
    }

    method Touch(u: UserId, address: Address, now: int)
      requires Valid()
      modifies this`clients
      ensures Valid()
      ensures clients == if u in old(clients)
                then old(clients)[u := old(clients)[u].(address := address, lastSeen := now)] else old(clients)
    {
      if u !in clients {
        return;
      }
      TouchAgrees(clients, rooms, u, clients[u].(address := address, lastSeen := now));
      clients := clients[u := clients[u].(address := address, lastSeen := now)];
    }

    /** Every other member of the room, once, by address. */
    method PeersExcept(u: UserId, room: string) returns (peers: seq<Address>)
      requires Valid()
      ensures room !in rooms ==> peers == []
      ensures room in rooms ==>
                && (forall x :: x in Erase(rooms[room], u) ==> x in clients && clients[x].roomId == room)
                && NoDuplicates(Erase(rooms[room], u))
                && peers == Addresses(clients, Erase(rooms[room], u))
    {
      peers := [];
      if room !in rooms {
        return;
      }
      RoomFacts(clients, rooms, room, u);
      peers := OtherAddresses(clients, rooms[room], u);
    }

    /** Removes the users not heard of for longer than `maxIdle`, in whatever order the map lists them. */
    method PruneIdle(maxIdle: int, now: int)
      requires Valid()
      modifies this
      ensures Valid()
      ensures forall u :: u in clients <==> u in old(clients) && now - old(clients)[u].lastSeen <= maxIdle
      ensures forall u :: u in clients ==> clients[u] == old(clients)[u]
      ensures var keep := Fresh(old(clients), now, maxIdle);
              clients == old(clients) - (old(clients).Keys - keep) && rooms == KeptRooms(old(rooms), keep)
    {
      hide Agree, RemovedFrom, KeptRooms, Kept, Erase, Listed, NoDuplicates;
      ghost var keep, before, lists := Fresh(clients, now, maxIdle), clients, rooms;
      var todo, gone := clients.Keys, {};
      AllRoomsKept(clients, rooms);
      while todo != {}
        invariant todo <= before.Keys - gone && gone <= before.Keys - keep && before.Keys - todo - gone <= keep
        invariant clients == before - gone && rooms == KeptRooms(lists, before.Keys - gone)
        invariant Valid()
        decreases |todo|
      {
        var u :| u in todo;
        todo := todo - {u};
        if now - clients[u].lastSeen > maxIdle {
          PruneStep(before, lists, gone, u);
          RemoveFromRoom(clients[u].roomId, u);
          clients := clients - {u};
          gone := gone + {u};
        }
      }
      assert gone == before.Keys - keep && before.Keys - gone == keep;
    }

    method RoomIdForUser(u: UserId) returns (found: bool, room: string)
      requires Valid()
      ensures found <==> u in clients
      ensures found ==> room in rooms && u in rooms[room]
    {
      if u !in clients {
        return false, "";
      }
      assert Listed(clients, rooms, u);
      return true, clients[u].roomId;
    }
  }

  lemma RoomFacts(clients: map<UserId, Client>, rooms: map<string, seq<UserId>>, room: string, u: UserId)
    requires Agree(clients, rooms) && room in rooms
    ensures forall x :: x in rooms[room] ==> x in clients && clients[x].roomId == room
    ensures NoDuplicates(Erase(rooms[room], u))
  {
    EraseDistinct(rooms[room], u);
  }

  lemma AddressStep(clients: map<UserId, Client>, members: seq<UserId>, i: nat, u: UserId)
    requires i < |members| && forall x :: x in members ==> x in clients
    ensures (forall x :: x in Erase(members[i..], u) ==> x in clients)
    ensures (forall x :: x in Erase(members[i + 1..], u) ==> x in clients)
    ensures Addresses(clients, Erase(members[i..], u)) ==
            (if members[i] != u then [clients[members[i]].address] else [])
                + Addresses(clients, Erase(members[i + 1..], u))
  {
    assert members[i..][0] == members[i] && members[i..][1..] == members[i + 1..];
  }

  method OtherAddresses(clients: map<UserId, Client>, members: seq<UserId>, u: UserId) returns (peers: seq<Address>)
    requires forall x :: x in members ==> x in clients
    ensures peers == Addresses(clients, Erase(members, u))
  {
    hide Erase, Addresses;
    peers := [];
    assert members[0..] == members;
    for i := 0 to |members|
      invariant peers + Addresses(clients, Erase(members[i..], u)) == Addresses(clients, Erase(members, u))
    {
      AddressStep(clients, members, i, u);
      ghost var rest := Addresses(clients, Erase(members[i + 1..], u));
      if members[i] == u {
        assert [] + rest == rest;
        continue;
      }
      if members[i] in clients {
        assert peers + ([clients[members[i]].address] + rest) == (peers + [clients[members[i]].address]) + rest;
        peers := peers + [clients[members[i]].address];
      }
    }
    NobodyLeft(members, u);
  }

  lemma NobodyLeft(members: seq<UserId>, u: UserId)
    ensures Erase(members[|members|..], u) == []
  {
  }

  // ----- what joining and leaving do to each list -----

  function ListOf(rooms: map<string, seq<UserId>>, room: string): seq<UserId> {
    if room in rooms then rooms[room] else []
  }

  lemma OnlyOwnList(clients: map<UserId, Client>, rooms: map<string, seq<UserId>>, u: UserId, room: string)
    requires Agree(clients, rooms) && u in ListOf(rooms, room)
    ensures u in clients && clients[u].roomId == room
  {
  }

  lemma RemovedList(rooms: map<string, seq<UserId>>, own: string, u: UserId, room: string)
    ensures ListOf(RemovedFrom(rooms, own, u), room) ==
            if room == own then Erase(ListOf(rooms, room), u) else ListOf(rooms, room)
  {
    EraseNothing(u);
    hide Erase;
  }

  lemma AddedList(rooms: map<string, seq<UserId>>, joined: string, u: UserId, room: string)
    ensures ListOf(AddedTo(rooms, joined, u), room) ==
            if room != joined || u in ListOf(rooms, room) then ListOf(rooms, room) else ListOf(rooms, room) + [u]
  {
  }

  /** A user that leaves is off its list; all others keep their places, in every room. */
  lemma LeftLists(clients: map<UserId, Client>, rooms: map<string, seq<UserId>>, u: UserId, room: string)
    requires Agree(clients, rooms) && u in clients
    ensures ListOf(RemovedFrom(rooms, clients[u].roomId, u), room) == Erase(ListOf(rooms, room), u)
  {
    hide Agree, RemovedFrom, Erase, ListOf;
    RemovedList(rooms, clients[u].roomId, u, room);
    if u in ListOf(rooms, room) {
      OnlyOwnList(clients, rooms, u, room);
    } else {
      NotThere(ListOf(rooms, room), u);
    }
  }

  /** A user that joins stands last on the list of the new room, or in its old place if it was there already,
      and on no other list; all others keep their places, in every room. */
  lemma JoinedLists(clients: map<UserId, Client>, rooms: map<string, seq<UserId>>, u: UserId, joined: string,
      room: string)
    requires Agree(clients, rooms)
    ensures ListOf(JoinedRooms(clients, rooms, u, joined), room) ==
            if room != joined then Erase(ListOf(rooms, room), u)
            else if u in ListOf(rooms, room) then ListOf(rooms, room) else ListOf(rooms, room) + [u]
  {
    hide Agree, RemovedFrom, AddedTo, Erase, ListOf;
    var before := if u in clients && clients[u].roomId != joined then RemovedFrom(rooms, clients[u].roomId, u)
        else rooms;
    AddedList(before, joined, u, room);
    if u in clients && clients[u].roomId != joined {
      LeftLists(clients, rooms, u, room);
    }
    if u in ListOf(rooms, room) {
      OnlyOwnList(clients, rooms, u, room);
    } else {
      NotThere(ListOf(rooms, room), u);
    }
  }
}
