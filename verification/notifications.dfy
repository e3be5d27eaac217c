/**
 Web-socket notifications: clients subscribe to topics, and each transaction is tailored to each
 subscriber. Two indexes, per client and per topic, are kept in step by every operation.
 */
module Notifications {
  import opened Util
  import opened Wrappers

  type Topic = string
  type PubKey = string

  /** What an input's spent output, or an output, identifies. */
  datatype Endpoint = Endpoint(xpub: Option<Topic>, addr: Option<Topic>)

  /** An input or output of a transaction as sent to clients. */
  datatype Item = Item(endpoint: Option<Endpoint>, body: string, pubkey: Option<PubKey>)

  datatype Tx = Tx(hash: string, inputs: seq<Item>, out: seq<Item>)

  /** A socket: the topics its client asked for, and whether it is open. */
  datatype Socket = Socket(subs: seq<Topic>, open: bool)

  // ----- the two indexes

  type Subs = map<Topic, seq<nat>>

  ghost predicate Subscribed(subs: Subs, topic: Topic, id: nat) {
    topic in subs && id in subs[topic]
  }

  /** No topic is listed without subscribers, and no subscriber twice. */
  ghost predicate WellFormed(subs: Subs) {
    forall topic {:trigger subs[topic]} | topic in subs :: subs[topic] != [] && Distinct(subs[topic])
  }

  ghost predicate Wants(sockets: map<nat, Socket>, conn: set<nat>, topic: Topic, id: nat) {
    id in conn && id in sockets && topic in sockets[id].subs
  }

  /** Both indexes say the same, hold no duplicates, and only know connected clients. */
  ghost predicate Inverse(sockets: map<nat, Socket>, conn: set<nat>, subs: Subs) {
    && conn <= sockets.Keys
    && (forall id | id in sockets :: sockets[id].open ==> id in conn)
    && (forall id | id in sockets :: Distinct(sockets[id].subs))
    && WellFormed(subs)
    && (forall topic, id: nat {:trigger Subscribed(subs, topic, id)} ::
          Subscribed(subs, topic, id) <==> Wants(sockets, conn, topic, id))
  }

  /** An address a client subscribes to, with its public key if the client gave one. */
  datatype AddrEntity = AddrEntity(address: Topic, pubkey: Option<PubKey>)

  ghost predicate Names(addrs: seq<AddrEntity>, topic: Topic) {
    exists j | 0 <= j < |addrs| :: addrs[j].address == topic
  }

  function TopicOf(item: Item): Option<Topic> {
    match item.endpoint
    case None => None
    case Some(e) => if e.xpub.Some? then e.xpub else e.addr
  }

  // ----- the naive per-client filter

  /** The item identifies this xpub, or no xpub and this address. */
  ghost predicate IsAbout(item: Item, topic: Topic) {
    && item.endpoint.Some?
    && (item.endpoint.value.xpub == Some(topic) ||
        (item.endpoint.value.xpub == None && item.endpoint.value.addr == Some(topic)))
  }

  ghost predicate Concerns(item: Item, topics: seq<Topic>) {
    exists t | t in topics :: t != "" && IsAbout(item, t)
  }

  /** The item as sent, with the public key cached for what it is about, if there is one. */
  ghost function WithKey(item: Item, keys: map<Topic, PubKey>): Item {
    if exists t :: t in keys && IsAbout(item, t)
    then var t :| t in keys && IsAbout(item, t); item.(pubkey := Some(keys[t]))
    else item
  }

  ghost function Tailored(items: seq<Item>, topics: seq<Topic>, keys: map<Topic, PubKey>): seq<Item> {
    if items == [] then []
    else Tailored(items[..|items| - 1], topics, keys) +
         (if Concerns(items[|items| - 1], topics) then [WithKey(items[|items| - 1], keys)] else [])
  }

  /** What a client with these topics must receive: one message, or none if nothing concerns it. */
  ghost function MessagesFor(tx: Tx, topics: seq<Topic>, keys: map<Topic, PubKey>): seq<Tx> {
    var context := Tx(tx.hash, Tailored(tx.inputs, topics, keys), Tailored(tx.out, topics, keys));
    if context.inputs == [] && context.out == [] then [] else [context]
  }

  /** The cached public keys once those given with the addresses are added; a later one replaces an earlier one. */
  function CacheKeys(keys: map<Topic, PubKey>, addrs: seq<AddrEntity>): map<Topic, PubKey> {
    if addrs == [] then keys
    else
      var rest, last := CacheKeys(keys, addrs[..|addrs| - 1]), addrs[|addrs| - 1];
      if last.pubkey.Some? then rest[last.address := last.pubkey.value] else rest
  }

  /** Where no key is given with a topic, the cache is as before. */
  lemma {:induction false} OtherKeysStay(keys: map<Topic, PubKey>, addrs: seq<AddrEntity>, t: Topic)
    requires forall j | 0 <= j < |addrs| && addrs[j].address == t :: addrs[j].pubkey.None?
    ensures t in CacheKeys(keys, addrs) <==> t in keys
    ensures t in keys ==> CacheKeys(keys, addrs)[t] == keys[t]
  {
    if addrs != [] { OtherKeysStay(keys, addrs[..|addrs| - 1], t); }
  }

  /** The key given last for an address is the one cached. */
  lemma {:induction false} LastKeyWins(keys: map<Topic, PubKey>, addrs: seq<AddrEntity>, j: nat)
    requires j < |addrs| && addrs[j].pubkey.Some?
    requires forall i | j < i < |addrs| && addrs[i].address == addrs[j].address :: addrs[i].pubkey.None?
    ensures addrs[j].address in CacheKeys(keys, addrs)
    ensures CacheKeys(keys, addrs)[addrs[j].address] == addrs[j].pubkey.value
  {
    if j < |addrs| - 1 { LastKeyWins(keys, addrs[..|addrs| - 1], j); }
  }

  lemma NamesMore(addrs: seq<AddrEntity>, i: nat)
    requires i < |addrs|
    ensures forall t {:trigger Names(addrs[..i + 1], t)} ::
              Names(addrs[..i + 1], t) <==> Names(addrs[..i], t) || addrs[i].address == t
  {
  }

  // ----- list updates

  function Without(s: seq<nat>, id: nat): (r: seq<nat>)
    requires Distinct(s)
    ensures Distinct(r) && forall x :: x in r <==> x in s && x != id
    decreases |s|
  {
    if s == [] then []
    else
      assert s == [s[0]] + s[1..] && s[0] !in s[1..];
      if s[0] == id then s[1..]
      else
        var rest := Without(s[1..], id);
        assert s[0] !in rest;
        [s[0]] + rest
  }

  /** The topic index once `id` has joined a topic it was not in. */
  function JoinTopic(subs: Subs, topic: Topic, id: nat): (r: Subs)
    requires !Subscribed(subs, topic, id) && WellFormed(subs)
    ensures WellFormed(r) && r.Keys == subs.Keys + {topic}
    ensures forall t, k: nat {:trigger Subscribed(r, t, k)} ::
              Subscribed(r, t, k) <==> Subscribed(subs, t, k) || (t == topic && k == id)
  {
    subs[topic := (if topic in subs then subs[topic] else []) + [id]]
  }

  /** The topic index once `id` has left the topic; a topic without subscribers disappears. */
  function LeaveTopic(subs: Subs, topic: Topic, id: nat): (r: Subs)
    requires WellFormed(subs)
    ensures WellFormed(r) && r.Keys <= subs.Keys && subs.Keys - {topic} <= r.Keys
    ensures forall t, k: nat {:trigger Subscribed(r, t, k)} ::
              Subscribed(r, t, k) <==> Subscribed(subs, t, k) && !(t == topic && k == id)
  {
    if topic !in subs || id !in subs[topic] then subs
    else if Without(subs[topic], id) == [] then
      assert forall k :: k in subs[topic] ==> k == id by {
        assert forall k :: k in Without(subs[topic], id) <==> k in subs[topic] && k != id;
      }
      subs - {topic}
    else subs[topic := Without(subs[topic], id)]
  }

  function Members(topics: seq<Topic>): set<Topic> {
    set t | t in topics
  }

  /** The cached public keys whose topic still has subscribers. */
  function KeysOfTopics(keys: map<Topic, PubKey>, subs: Subs): map<Topic, PubKey> {
    map t | t in keys && t in subs :: keys[t]
  }

  class NotificationsService {
    var sockets: map<nat, Socket>
    var conn: set<nat>
    var subs: Subs
    var cachePubKeys: map<Topic, PubKey>
    // Subscription messages received lately.
    var cacheSubs: set<string>
    var sent: map<nat, seq<Tx>>
    var sessions: nat

    ghost predicate Valid()
      reads this
    {
      && Inverse(sockets, conn, subs)
      && sent.Keys == sockets.Keys && (forall id | id in sockets :: id < sessions)
      && cachePubKeys.Keys <= subs.Keys
    }

    constructor ()
      ensures Valid() && conn == {} && subs == map[] && cacheSubs == {}
    {
      sockets, conn, subs, cachePubKeys, cacheSubs, sent, sessions := map[], {}, map[], map[], {}, map[], 0;
    }

    /** A new connection gets a fresh id and no subscription. */
    method Connect() returns (id: nat)
      requires Valid()
      modifies this
      ensures Valid() && id == old(sessions) && id !in old(sockets)
      ensures sockets == old(sockets)[id := Socket([], true)] && conn == old(conn) + {id}
      ensures subs == old(subs) && cachePubKeys == old(cachePubKeys) && cacheSubs == old(cacheSubs)
      ensures sent == old(sent)[id := []]
    {
      id := sessions;
      sessions := sessions + 1;
      sockets, conn, sent := sockets[id := Socket([], true)], conn + {id}, sent[id := []];
    }

    /** Subscribes an open connection to a topic; a repeated subscription changes nothing. */
    method AddSub(topic: Topic, id: nat)
      requires Valid() && id in sockets && sockets[id].open
      modifies `sockets, `subs
      ensures Valid()
      ensures forall t, k: nat {:trigger Subscribed(subs, t, k)} ::
                Subscribed(subs, t, k) <==> Subscribed(old(subs), t, k) || (t == topic && k == id)
      ensures sockets == old(sockets)[id := sockets[id]] && sockets[id].open
      ensures topic in subs && old(subs).Keys <= subs.Keys
    {
      if topic in sockets[id].subs {
        assert Subscribed(subs, topic, id);
        return;
      }
      assert !Subscribed(subs, topic, id);
      sockets := sockets[id := sockets[id].(subs := sockets[id].subs + [topic])];
      subs := JoinTopic(subs, topic, id);
    }

    /** Subscribes to addresses, remembering the public keys given with some of them, and to xpubs. */
    method EntitySub(addrs: seq<AddrEntity>, xpubs: seq<Topic>, id: nat)
      requires Valid() && id in sockets && sockets[id].open
      modifies `sockets, `subs, `cachePubKeys
      ensures Valid()
      ensures forall t, k: nat {:trigger Subscribed(subs, t, k)} ::
                Subscribed(subs, t, k) <==>
                Subscribed(old(subs), t, k) || (k == id && (t in xpubs || Names(addrs, t)))
      ensures sockets == old(sockets)[id := sockets[id]] && sockets[id].open
      ensures forall t :: t in sockets[id].subs <==> t in old(sockets)[id].subs || t in xpubs || Names(addrs, t)
      ensures cachePubKeys == CacheKeys(old(cachePubKeys), addrs)
    {
      SubAddrs(addrs, id);
      SubXpubs(xpubs, id);
      forall t
        ensures t in sockets[id].subs <==> t in old(sockets)[id].subs || t in xpubs || Names(addrs, t)
      {
        assert Subscribed(subs, t, id) <==> Wants(sockets, conn, t, id);
        assert Subscribed(old(subs), t, id) <==> Wants(old(sockets), conn, t, id);
      }
    }

    method SubAddrs(addrs: seq<AddrEntity>, id: nat)
      requires Valid() && id in sockets && sockets[id].open
      modifies `sockets, `subs, `cachePubKeys
      ensures Valid() && sockets == old(sockets)[id := sockets[id]] && sockets[id].open
      ensures forall t, k: nat {:trigger Subscribed(subs, t, k)} ::
                Subscribed(subs, t, k) <==> Subscribed(old(subs), t, k) || (k == id && Names(addrs, t))
      ensures cachePubKeys == CacheKeys(old(cachePubKeys), addrs)
    {
      for i := 0 to |addrs|
        invariant Valid() && sockets == old(sockets)[id := sockets[id]] && sockets[id].open
        invariant cachePubKeys == CacheKeys(old(cachePubKeys), addrs[..i])
        invariant forall t, k: nat {:trigger Subscribed(subs, t, k)} ::
                    Subscribed(subs, t, k) <==>
                    Subscribed(old(subs), t, k) || (k == id && Names(addrs[..i], t))
      {
        NamesMore(addrs, i);
        assert addrs[..i + 1][..i] == addrs[..i];
        SubAddr(addrs[i], id);
      }
      assert addrs[..|addrs|] == addrs;
    }

    method SubAddr(addr: AddrEntity, id: nat)
      requires Valid() && id in sockets && sockets[id].open
      modifies `sockets, `subs, `cachePubKeys
      ensures Valid() && sockets == old(sockets)[id := sockets[id]] && sockets[id].open
      ensures forall t, k: nat {:trigger Subscribed(subs, t, k)} ::
                Subscribed(subs, t, k) <==> Subscribed(old(subs), t, k) || (t == addr.address && k == id)
      ensures cachePubKeys == if addr.pubkey.Some? then old(cachePubKeys)[addr.address := addr.pubkey.value]
                              else old(cachePubKeys)
    {
      AddSub(addr.address, id);
      if addr.pubkey.Some? { cachePubKeys := cachePubKeys[addr.address := addr.pubkey.value]; }
    }

    method SubXpubs(xpubs: seq<Topic>, id: nat)
      requires Valid() && id in sockets && sockets[id].open
      modifies `sockets, `subs
      ensures Valid() && sockets == old(sockets)[id := sockets[id]] && sockets[id].open
      ensures forall t, k: nat {:trigger Subscribed(subs, t, k)} ::
                Subscribed(subs, t, k) <==> Subscribed(old(subs), t, k) || (k == id && t in xpubs)
    {
      for i := 0 to |xpubs|
        invariant Valid() && sockets == old(sockets)[id := sockets[id]] && sockets[id].open
        invariant forall t, k: nat {:trigger Subscribed(subs, t, k)} ::
                    Subscribed(subs, t, k) <==> Subscribed(old(subs), t, k) || (k == id && t in xpubs[..i])
      {
        assert xpubs[..i + 1] == xpubs[..i] + [xpubs[i]];
        AddSub(xpubs[i], id);
      }
      assert xpubs[..|xpubs|] == xpubs;
    }

    method Unsub(topic: Topic, id: nat)
      requires WellFormed(subs) && cachePubKeys.Keys <= subs.Keys
      modifies `subs, `cachePubKeys
      ensures subs == LeaveTopic(old(subs), topic, id) && cachePubKeys.Keys <= subs.Keys
      ensures cachePubKeys == KeysOfTopics(old(cachePubKeys), subs)
    {
      subs := LeaveTopic(subs, topic, id);
      if topic !in subs { cachePubKeys := cachePubKeys - {topic}; }
    }

    /** At any time the cache of messages may drop some, by age or for want of room. */
    method ExpireSubs(gone: set<string>)
      modifies `cacheSubs
      ensures cacheSubs == old(cacheSubs) - gone
    {
      cacheSubs := cacheSubs - gone;
    }

    /** Lets a subscription message pass unless it was received lately. */
    method FilterWSMessage(msg: string) returns (passes: bool)
      modifies `cacheSubs
      ensures passes <==> msg !in old(cacheSubs)
      ensures cacheSubs == old(cacheSubs) + {msg}
    {
      passes := msg !in cacheSubs;
      cacheSubs := cacheSubs + {msg};
    }

    /**
     Closes a connection, once or repeatedly: it leaves every topic and is no longer known. A call that is not
     forced also takes its topics out of the cache of messages, so that it may subscribe again at once; the
     close event of a socket makes such a call, after a forced one too.
     */
    method CloseWSConnection(id: nat, forcedClose: bool)
      requires Valid() && id in sockets
      modifies this
      ensures Valid() && conn == old(conn) - {id} && sent == old(sent)
      ensures cacheSubs == if forcedClose then old(cacheSubs) else old(cacheSubs) - Members(old(sockets)[id].subs)
      ensures sockets == old(sockets)[id := old(sockets)[id].(open := false)]
      ensures forall t, k: nat {:trigger Subscribed(subs, t, k)} ::
                Subscribed(subs, t, k) <==> Subscribed(old(subs), t, k) && k != id
      ensures cachePubKeys == KeysOfTopics(old(cachePubKeys), subs)
    {
      LeaveTopics(sockets[id].subs, id, forcedClose);
      conn := conn - {id};
      sockets := sockets[id := sockets[id].(open := false)];
    }

    /** Unsubscribes from each of the topics. */
    method LeaveTopics(topics: seq<Topic>, id: nat, forcedClose: bool)
      requires WellFormed(subs) && cachePubKeys.Keys <= subs.Keys
      modifies `subs, `cachePubKeys, `cacheSubs
      ensures WellFormed(subs) && subs.Keys <= old(subs).Keys && cachePubKeys == KeysOfTopics(old(cachePubKeys), subs)
      ensures forall t, k: nat {:trigger Subscribed(subs, t, k)} ::
                Subscribed(subs, t, k) <==> Subscribed(old(subs), t, k) && !(k == id && t in topics)
      ensures cacheSubs == if forcedClose then old(cacheSubs) else old(cacheSubs) - Members(topics)
    {
      for i := 0 to |topics|
        invariant WellFormed(subs) && subs.Keys <= old(subs).Keys
        invariant cachePubKeys == KeysOfTopics(old(cachePubKeys), subs)
        invariant cacheSubs == if forcedClose then old(cacheSubs) else old(cacheSubs) - Members(topics[..i])
        invariant forall t, k: nat {:trigger Subscribed(subs, t, k)} ::
                    Subscribed(subs, t, k) <==> Subscribed(old(subs), t, k) && !(k == id && t in topics[..i])
      {
        assert topics[..i + 1] == topics[..i] + [topics[i]];
        Unsub(topics[i], id);
        if !forcedClose { cacheSubs := cacheSubs - {topics[i]}; }
      }
      assert topics[..|topics|] == topics;
    }

    /**
     Handles a client message. A socket that closed meanwhile is ignored, a subscription message received
     lately closes the connection, anything else subscribes to exactly what it asks for.
     */
    method HandleMessage(message: ClientMessage, id: nat)
      requires Valid() && id in sockets
      modifies this
      ensures Valid() && id in sockets && sockets == old(sockets)[id := sockets[id]] && sent == old(sent)
      ensures !old(sockets)[id].open || IsIdle(message) ==>
                && sockets == old(sockets) && conn == old(conn) && subs == old(subs)
                && cachePubKeys == old(cachePubKeys) && cacheSubs == old(cacheSubs)
      ensures old(sockets)[id].open && !IsIdle(message) ==>
                && conn == (if Floods(message, old(cacheSubs)) then old(conn) - {id} else old(conn))
                && cacheSubs == (if message.AddrSub? then old(cacheSubs) + {message.raw} else old(cacheSubs))
                && (sockets[id].open <==> !Floods(message, old(cacheSubs)))
                && cachePubKeys == (if Floods(message, old(cacheSubs)) then KeysOfTopics(old(cachePubKeys), subs)
                                    else if message.AddrSub? then CacheKeys(old(cachePubKeys), message.addrs)
                                    else old(cachePubKeys))
                && (forall t, k: nat {:trigger Subscribed(subs, t, k)} ::
                      Subscribed(subs, t, k) <==>
                      if k != id then Subscribed(old(subs), t, k)
                      else !Floods(message, old(cacheSubs)) && (Subscribed(old(subs), t, k) || AsksFor(message, t)))
    {
      // Verifying the token takes time, in which the socket may close
      if !sockets[id].open {
        return;
      }
      match message
      case Ping =>
      case AddrSub(raw, addrs, xpubs) =>
        if raw != "" {
          var passes := FilterWSMessage(raw);
          if passes {
            EntitySub(addrs, xpubs, id);
          } else {
            CloseWSConnection(id, true);
          }
        }
      case BlocksSub =>
        AddSub("block", id);
    }

    // ----- notifying a transaction

    /** Marks the items whose topic has subscribers, and collects those topics. */
    method MarkTopics(items: seq<Item>, topics: set<Topic>) returns (marks: seq<Option<Topic>>, more: set<Topic>)
      ensures |marks| == |items|
      ensures forall i | 0 <= i < |items| :: marks[i] == MarkOf(items[i], subs)
      ensures more == topics + MarkedTopics(items, subs)
    {
      marks, more := [], topics;
      for i := 0 to |items|
        invariant |marks| == i
        invariant forall j | 0 <= j < i :: marks[j] == MarkOf(items[j], subs)
        invariant more == topics + MarkedTopics(items[..i], subs)
      {
        MarkedMore(items, subs, i);
        var mark := MarkOf(items[i], subs);
        marks := marks + [mark];
        if mark.Some? { more := more + {mark.value}; }
      }
      assert items[..|items|] == items;
    }

    /** The topics relevant to each client. */
    method GatherClients(topics: set<Topic>) returns (clients: map<nat, set<Topic>>)
      requires topics <= subs.Keys
      ensures forall id: nat, t {:trigger HasTopic(clients, id, t)} ::
                HasTopic(clients, id, t) <==> t in topics && Subscribed(subs, t, id)
      ensures forall id | id in clients :: clients[id] != {}
    {
      clients := map[];
      var rest := topics;
      while rest != {}
        invariant rest <= topics
        invariant forall id: nat, t {:trigger HasTopic(clients, id, t)} ::
                    HasTopic(clients, id, t) <==> t in topics && t !in rest && Subscribed(subs, t, id)
        invariant forall id | id in clients :: clients[id] != {}
        decreases |rest|
      {
        var topic :| topic in rest;
        clients := AddTopic(clients, topic, subs[topic]);
        rest := rest - {topic};
      }
    }

    /** Tailors the transaction for one client and sends it unless nothing is left of it. */
    method SendTo(id: nat, tx: Tx, topics: set<Topic>, inMarks: seq<Option<Topic>>, outMarks: seq<Option<Topic>>)
      requires id in sent && |inMarks| == |tx.inputs| && |outMarks| == |tx.out|
      modifies `sent
      ensures sent == old(sent)[id := old(sent)[id] + Contexts(tx, topics, inMarks, outMarks, cachePubKeys)]
    {
      var inputs := TailorItems(tx.inputs, inMarks, topics);
      var out := TailorItems(tx.out, outMarks, topics);
      // Nothing in it concerns this client
      if |inputs| == 0 && |out| == 0 {
        assert sent[id] + [] == sent[id];
        return;
      }
      sent := sent[id := sent[id] + [Tx(tx.hash, inputs, out)]];
    }

    method TailorItems(items: seq<Item>, marks: seq<Option<Topic>>, topics: set<Topic>) returns (r: seq<Item>)
      requires |marks| == |items|
      ensures r == Selected(items, marks, topics, cachePubKeys)
    {
      r := [];
      for i := 0 to |items|
        invariant r == Selected(items[..i], marks[..i], topics, cachePubKeys)
      {
        assert items[..i + 1][..i] == items[..i] && marks[..i + 1][..i] == marks[..i];
        if marks[i].Some? && marks[i].value in topics {
          r := r + [items[i].(pubkey := if marks[i].value in cachePubKeys then Some(cachePubKeys[marks[i].value])
                                        else items[i].pubkey)];
        }
      }
      assert items[..|items|] == items && marks[..|marks|] == marks;
    }

    /** Tailors and sends the transaction to each gathered client. */
    method Dispatch(tx: Tx, clients: map<nat, set<Topic>>, inMarks: seq<Option<Topic>>, outMarks: seq<Option<Topic>>)
      requires clients.Keys <= sent.Keys && |inMarks| == |tx.inputs| && |outMarks| == |tx.out|
      modifies `sent
      ensures sent.Keys == old(sent).Keys
      ensures forall id | id in sent ::
                sent[id] == old(sent)[id] +
                            (if id in clients then Contexts(tx, clients[id], inMarks, outMarks, cachePubKeys) else [])
    {
      var rest := clients.Keys;
      while rest != {}
        invariant rest <= clients.Keys && sent.Keys == old(sent).Keys
        invariant forall id | id in sent ::
                    sent[id] == old(sent)[id] +
                                (if id in clients && id !in rest
                                 then Contexts(tx, clients[id], inMarks, outMarks, cachePubKeys) else [])
        decreases |rest|
      {
        var cid :| cid in rest;
        assert sent[cid] == old(sent)[cid];
        SendTo(cid, tx, clients[cid], inMarks, outMarks);
        rest := rest - {cid};
      }
    }

    /**
     Notifies a transaction. Every connected client receives exactly what the naive filter of its own
     subscriptions yields: one message with the items it subscribed to, in their order, or nothing.
     */
    method NotifyTransaction(tx: Tx)
      requires Valid()
      modifies `sent
      ensures Valid()
      ensures forall id | id in sockets ::
                sent[id] == old(sent)[id] + (if id in conn then MessagesFor(tx, sockets[id].subs, cachePubKeys) else [])
    {
      var inMarks, outMarks, topics;
      inMarks, topics := MarkTopics(tx.inputs, {});
      outMarks, topics := MarkTopics(tx.out, topics);
      var clients := GatherClients(topics);
      forall id | id in clients
        ensures id in sent
      {
        ClientIsConnected(sockets, conn, subs, topics, clients, id);
      }
      Dispatch(tx, clients, inMarks, outMarks);
      forall id | id in sockets
        ensures sent[id] == old(sent)[id] + (if id in conn then MessagesFor(tx, sockets[id].subs, cachePubKeys) else [])
      {
        ContextsAreNaive(tx, sockets, conn, subs, topics, clients, inMarks, outMarks, cachePubKeys, id);
      }
    }
  }

  ghost predicate HasTopic(clients: map<nat, set<Topic>>, id: nat, topic: Topic) {
    id in clients && topic in clients[id]
  }

  function WithTopic(clients: map<nat, set<Topic>>, cid: nat, topic: Topic): (r: map<nat, set<Topic>>)
    ensures forall id: nat, t {:trigger HasTopic(r, id, t)} ::
              HasTopic(r, id, t) <==> HasTopic(clients, id, t) || (t == topic && id == cid)
    ensures r.Keys == clients.Keys + {cid} && r[cid] != {}
    ensures forall id | id in clients && id != cid :: r[id] == clients[id]
  {
    clients[cid := (if cid in clients then clients[cid] else {}) + {topic}]
  }

  /** Adds the topic to each of the listed clients. */
  method AddTopic(clients: map<nat, set<Topic>>, topic: Topic, cids: seq<nat>) returns (more: map<nat, set<Topic>>)
    requires forall id | id in clients :: clients[id] != {}
    ensures forall id: nat, t {:trigger HasTopic(more, id, t)} ::
              HasTopic(more, id, t) <==> HasTopic(clients, id, t) || (t == topic && id in cids)
    ensures forall id | id in more :: more[id] != {}
  {
    more := clients;
    for i := 0 to |cids|
      invariant forall id: nat, t {:trigger HasTopic(more, id, t)} ::
                  HasTopic(more, id, t) <==> HasTopic(clients, id, t) || (t == topic && id in cids[..i])
      invariant forall id | id in more :: more[id] != {}
    {
      assert cids[..i + 1] == cids[..i] + [cids[i]];
      more := WithTopic(more, cids[i], topic);
    }
    assert cids[..|cids|] == cids;
  }

  /** The marked items of the given topics, with their cached public keys. */
  function Selected(items: seq<Item>, marks: seq<Option<Topic>>, topics: set<Topic>, keys: map<Topic, PubKey>)
    : seq<Item>
    requires |marks| == |items|
  {
    if items == [] then []
    else
      var n := |items| - 1;
      Selected(items[..n], marks[..n], topics, keys) +
      (if marks[n].Some? && marks[n].value in topics
       then [items[n].(pubkey := if marks[n].value in keys then Some(keys[marks[n].value]) else items[n].pubkey)]
       else [])
  }

  function Contexts(tx: Tx, topics: set<Topic>, inMarks: seq<Option<Topic>>, outMarks: seq<Option<Topic>>,
                    keys: map<Topic, PubKey>): seq<Tx>
    requires |inMarks| == |tx.inputs| && |outMarks| == |tx.out|
  {
    var inputs, out := Selected(tx.inputs, inMarks, topics, keys), Selected(tx.out, outMarks, topics, keys);
    if inputs == [] && out == [] then [] else [Tx(tx.hash, inputs, out)]
  }

  ghost predicate Marked(items: seq<Item>, marks: seq<Option<Topic>>, subs: Subs) {
    |marks| == |items| && forall i | 0 <= i < |items| :: marks[i] == MarkOf(items[i], subs)
  }

  /** Selecting by marks and gathered topics is the naive filter of the client's own subscriptions. */
  lemma {:induction false} SelectedIsTailored(items: seq<Item>, marks: seq<Option<Topic>>, topics: set<Topic>,
                                              own: seq<Topic>, keys: map<Topic, PubKey>, subs: Subs)
    requires Marked(items, marks, subs)
    requires forall i | 0 <= i < |items| && marks[i].Some? :: marks[i].value in topics <==> marks[i].value in own
    requires forall t | t in own :: t in subs
    ensures Selected(items, marks, topics, keys) == Tailored(items, own, keys)
  {
    if items != [] {
      var n := |items| - 1;
      SelectedIsTailored(items[..n], marks[..n], topics, own, keys, subs);
    }
  }

  ghost predicate Gathered(subs: Subs, topics: set<Topic>, clients: map<nat, set<Topic>>) {
    && (forall id: nat, t {:trigger HasTopic(clients, id, t)} ::
          HasTopic(clients, id, t) <==> t in topics && Subscribed(subs, t, id))
    && (forall id | id in clients :: clients[id] != {})
  }

  lemma ClientIsConnected(sockets: map<nat, Socket>, conn: set<nat>, subs: Subs, topics: set<Topic>,
                          clients: map<nat, set<Topic>>, id: nat)
    requires Inverse(sockets, conn, subs) && Gathered(subs, topics, clients) && id in clients
    ensures id in conn && id in sockets
  {
    var t :| t in clients[id];
    assert HasTopic(clients, id, t) && Subscribed(subs, t, id);
  }

  lemma {:induction false} SelectedNone(items: seq<Item>, marks: seq<Option<Topic>>, keys: map<Topic, PubKey>)
    requires |marks| == |items|
    ensures Selected(items, marks, {}, keys) == []
  {
    if items != [] { SelectedNone(items[..|items| - 1], marks[..|items| - 1], keys); }
  }

  /** What is sent to a client, or not sent, against the naive filter. */
  lemma ContextsAreNaive(tx: Tx, sockets: map<nat, Socket>, conn: set<nat>, subs: Subs, topics: set<Topic>,
                         clients: map<nat, set<Topic>>, inMarks: seq<Option<Topic>>, outMarks: seq<Option<Topic>>,
                         keys: map<Topic, PubKey>, id: nat)
    requires Inverse(sockets, conn, subs) && Gathered(subs, topics, clients) && id in sockets
    requires Marked(tx.inputs, inMarks, subs) && Marked(tx.out, outMarks, subs)
    requires topics == MarkedTopics(tx.inputs, subs) + MarkedTopics(tx.out, subs)
    ensures (if id in clients then Contexts(tx, clients[id], inMarks, outMarks, keys) else [])
         == (if id in conn then MessagesFor(tx, sockets[id].subs, keys) else [])
  {
    if id in conn {
      var own, mine := sockets[id].subs, if id in clients then clients[id] else {};
      SelectedNone(tx.inputs, inMarks, keys);
      SelectedNone(tx.out, outMarks, keys);
      forall t | t in own
        ensures Subscribed(subs, t, id)
      {
        assert Wants(sockets, conn, t, id);
        assert Subscribed(subs, t, id) <==> Wants(sockets, conn, t, id);
      }
      forall t | t in topics
        ensures t in mine <==> t in own
      {
        assert HasTopic(clients, id, t) <==> Subscribed(subs, t, id);
      }
      SelectedIsTailored(tx.inputs, inMarks, mine, own, keys, subs);
      SelectedIsTailored(tx.out, outMarks, mine, own, keys, subs);
    } else if id in clients {
      ClientIsConnected(sockets, conn, subs, topics, clients, id);
    }
  }

  /** A subscription message carries its text and the addresses and xpubs parsed from it. */
  datatype ClientMessage = Ping | AddrSub(raw: string, addrs: seq<AddrEntity>, xpubs: seq<Topic>) | BlocksSub

  /** Pings, and subscription messages without text, change nothing. */
  predicate IsIdle(message: ClientMessage) {
    message.Ping? || (message.AddrSub? && message.raw == "")
  }

  predicate Floods(message: ClientMessage, cacheSubs: set<string>) {
    message.AddrSub? && message.raw in cacheSubs
  }

  ghost predicate AsksFor(message: ClientMessage, topic: Topic) {
    match message
    case Ping => false
    case AddrSub(_, addrs, xpubs) => topic in xpubs || Names(addrs, topic)
    case BlocksSub => topic == "block"
  }

  /** The topic of an item if someone subscribed to it. */
  function MarkOf(item: Item, subs: Subs): Option<Topic> {
    var t := TopicOf(item);
    if t.Some? && t.value != "" && t.value in subs then t else None
  }

  ghost function MarkedTopics(items: seq<Item>, subs: Subs): set<Topic> {
    set i | 0 <= i < |items| && MarkOf(items[i], subs).Some? :: MarkOf(items[i], subs).value
  }

  lemma MarkedMore(items: seq<Item>, subs: Subs, i: nat)
    requires i < |items|
    ensures MarkedTopics(items[..i + 1], subs) ==
            MarkedTopics(items[..i], subs) +
            (if MarkOf(items[i], subs).Some? then {MarkOf(items[i], subs).value} else {})
  {
  }
}
