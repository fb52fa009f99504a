/** The server's one way of telling members what changed: send to each member's room, then remember
    (server/src/realtime/emit.ts). */
module Emit {
  import opened OrderedMap
  import opened ReplayStore

  /** Each id once, in the order first named; an empty id is nobody. */
  function RecipientsAfter(found: seq<Member>, userIds: seq<Member>): seq<Member>
    decreases |userIds|
  {
    if userIds == [] then found
    else if userIds[0].id == "" || userIds[0] in found then RecipientsAfter(found, userIds[1..])
    else RecipientsAfter(found + [userIds[0]], userIds[1..])
  }

  function Recipients(userIds: seq<Member>): seq<Member> {
    RecipientsAfter([], userIds)
  }

  lemma {:induction false} RecipientsAre(found: seq<Member>, userIds: seq<Member>)
    requires Distinct(found) && forall u :: u in found ==> u.id != ""
    ensures Distinct(RecipientsAfter(found, userIds))
    ensures forall u :: u in RecipientsAfter(found, userIds) <==> u in found || (u in userIds && u.id != "")
    decreases |userIds|
  {
    if userIds != [] {
      var head, rest := userIds[0], userIds[1..];
      assert forall u :: u in userIds <==> u == head || u in rest;
      RecipientsAre(if head.id == "" || head in found then found else found + [head], rest);
    }
  }

  /** A message put on a member's room. */
  datatype Post = Post(room: Member, entities: seq<Tag>)

  function Posts(recipients: seq<Member>, entities: seq<Tag>): seq<Post> {
    seq(|recipients|, i requires 0 <= i < |recipients| => Post(recipients[i], entities))
  }

  class Io {
    var posted: seq<Post>

    constructor ()
      ensures posted == []
    {
      posted := [];
    }

    /** The fan-out, up to the first room it fails on, if any. */
    method SendEach(recipients: seq<Member>, entities: seq<Tag>, failsAt: nat)
      modifies this
      ensures posted == old(posted) + Posts(recipients, entities)[..Reached(recipients, failsAt)]
    {
      for i := 0 to Reached(recipients, failsAt)
        invariant posted == old(posted) + Posts(recipients, entities)[..i]
      {
        posted := posted + [Post(recipients[i], entities)];
      }
    }
  }

  function Reached(recipients: seq<Member>, failsAt: nat): (n: nat)
    ensures n <= |recipients|
  {
    if failsAt < |recipients| then failsAt else |recipients|
  }

  method RecipientsOf(userIds: seq<Member>) returns (recipients: seq<Member>)
    ensures recipients == Recipients(userIds)
  {
    recipients := [];
    for i := 0 to |userIds|
      invariant RecipientsAfter(recipients, userIds[i..]) == Recipients(userIds)
    {
      assert userIds[i..][1..] == userIds[i + 1..];
      if userIds[i].id != "" && userIds[i] !in recipients {
        recipients := recipients + [userIds[i]];
      }
    }
  }

  lemma {:induction false} OnceEach<T(!new)>(s: seq<T>, x: T)
    requires Distinct(s)
    ensures multiset(s)[x] == if x in s then 1 else 0
  {
    if s != [] {
      assert s == [s[0]] + s[1..];
      OnceEach(s[1..], x);
    }
  }

  /** What a fan-out puts on the rooms: these tags and no others, on no room but a named member's, on none twice; and
      when it does not fail, on every one. */
  lemma PostsOnceEach(userIds: seq<Member>, entities: seq<Tag>, failsAt: nat, post: Post)
    ensures var recipients := Recipients(userIds);
            var posts := Posts(recipients, entities)[..Reached(recipients, failsAt)];
            && multiset(posts)[post] <= 1
            && (post in posts ==> post.entities == entities && post.room in userIds && post.room.id != "")
            && (failsAt >= |recipients| && post.entities == entities && post.room in userIds && post.room.id != "" ==>
                  multiset(posts)[post] == 1)
  {
    var recipients := Recipients(userIds);
    RecipientsAre([], userIds);
    var posts := Posts(recipients, entities)[..Reached(recipients, failsAt)];
    assert forall k :: 0 <= k < |posts| ==> posts[k] == Post(recipients[k], entities);
    OnceEach(posts, post);
    if post.room in recipients {
      var k :| 0 <= k < |recipients| && recipients[k] == post.room;
      assert k < |posts| && post.entities == entities ==> posts[k] == post;
    }
  }

  /** Every recipient the fan-out reaches is sent the tags once; and all of them are remembered, at this one moment,
      even when it fails on the way. Before there is a server to send by, nothing happens. */
  method EmitEntities(io: Io?, memory: Memory, userIds: seq<Member>, entities: seq<Tag>, failsAt: nat, now: int)
    requires memory.Valid()
    modifies io, memory
    ensures memory.Valid()
    ensures var recipients := Recipients(userIds);
            if io == null || entities == [] || recipients == [] then
              memory.Contents() == old(memory.Contents()) && (io != null ==> io.posted == old(io.posted))
            else
              && io.posted == old(io.posted) + Posts(recipients, entities)[..Reached(recipients, failsAt)]
              && memory.Contents() == Remembered(old(memory.Contents()), recipients, entities, now)
  {
    if io == null || entities == [] {
      return;
    }
    var recipients := RecipientsOf(userIds);
    if recipients == [] {
      return;
    }
    io.SendEach(recipients, entities, failsAt);
    memory.RememberEntities(recipients, entities, now);
  }
}
