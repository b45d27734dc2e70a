/** Building the path index and routing packets (app_handler.rs, `AppHandler`). */
module AppHandler {
  import opened ObserveHandler
  import opened Packets
  import opened PathMatcher
  import opened Paths
  import opened RetransmissionManager
  import SendLoop
  import opened Wrappers

  /** A resource as its builder delivers it. */
  datatype Resource<H> = Resource(path: string, handler: H)

  const CORE_PATH: string := "/" + (".well-known" + "/" + "core")

  /** The resources of an app, discovery included when it is enabled. */
  function AllResources<H>(resources: seq<Resource<H>>, discoverable: bool, core: H): seq<Resource<H>> {
    resources + if discoverable then [Resource(CORE_PATH, core)] else []
  }

  /** Where section 4 of RFC 6690 puts the discovery resource. */
  const CORE_KEY: Key := [".well-known", "core"]

  lemma CorePathIsWellKnown()
    ensures KeyFromPath(CORE_PATH) == CORE_KEY
  {
    LeadingSlash(".well-known" + "/" + "core");
    KeyOfSegment(".well-known");
    KeyBelow(".well-known", "core");
  }

  /** Resource `i` has this key and handler, and neither a later one nor discovery is installed at the
      same path string. */
  ghost predicate Keeps<H>(key: Key, handler: H, resources: seq<Resource<H>>, discoverable: bool, i: nat) {
    && i < |resources| && KeyFromPath(resources[i].path) == key && resources[i].handler == handler
    && (forall j :: i < j < |resources| ==> resources[j].path != resources[i].path)
    && (discoverable ==> resources[i].path != CORE_PATH)
  }

  /** This entry of the index is that of an installed resource, or of discovery. */
  ghost predicate ComesFrom<H>(key: Key, handler: H, resources: seq<Resource<H>>, discoverable: bool, core: H) {
    || (exists i :: Keeps(key, handler, resources, discoverable, i))
    || (discoverable && key == CORE_KEY && handler == core)
  }

  lemma IndexedSources<H>(contents: map<Key, H>, resources: seq<Resource<H>>, discoverable: bool, core: H)
    requires Indexes(contents, AllResources(resources, discoverable, core))
    ensures forall i :: 0 <= i < |resources| ==> KeyFromPath(resources[i].path) in contents
    ensures discoverable ==> CORE_KEY in contents
    ensures forall key :: key in contents ==> ComesFrom(key, contents[key], resources, discoverable, core)
  {
    var all := AllResources(resources, discoverable, core);
    CorePathIsWellKnown();
    forall i | 0 <= i < |resources|
      ensures KeyFromPath(resources[i].path) in contents
    {
      assert all[i] == resources[i];
    }
    if discoverable {
      assert all[|resources|] == Resource(CORE_PATH, core);
    }
    forall key | key in contents
      ensures ComesFrom(key, contents[key], resources, discoverable, core)
    {
      var i: nat :| Serves(all, i, key, contents[key]);
      if i < |resources| {
        assert forall j :: i <= j < |resources| ==> resources[j] == all[j];
        assert discoverable ==> all[|resources|].path == CORE_PATH;
        assert Keeps(key, contents[key], resources, discoverable, i);
      }
    }
  }

  predicate DistinctKeys<H>(resources: seq<Resource<H>>) {
    forall i, j :: 0 <= i < j < |resources| ==> KeyFromPath(resources[i].path) != KeyFromPath(resources[j].path)
  }

  /** The handler of `path` is that of the last resource installed at it. */
  ghost predicate Installed<H>(resources: seq<Resource<H>>, i: nat, path: string, handler: H) {
    && i < |resources| && resources[i] == Resource(path, handler)
    && (forall j :: i < j < |resources| ==> resources[j].path != path)
  }

  /** Resource `i`, the last one at its path string, has this key and handler. */
  ghost predicate Serves<H>(resources: seq<Resource<H>>, i: nat, key: Key, handler: H) {
    && i < |resources| && KeyFromPath(resources[i].path) == key
    && Installed(resources, i, resources[i].path, handler)
  }

  /** `contents` has an entry for the key of every resource, and nothing else; of the resources
      installed at the same path string only the last one can be found. */
  ghost predicate Indexes<H>(contents: map<Key, H>, resources: seq<Resource<H>>) {
    && (forall i :: 0 <= i < |resources| ==> KeyFromPath(resources[i].path) in contents)
    && (forall key :: key in contents ==>
          exists i :: Serves(resources, i, key, contents[key]))
  }

  datatype Dispatched<H> = Dispatched(handler: H, unmatchedPath: Key)

  function Dispatch<H>(contents: map<Key, H>, path: Key): Option<Dispatched<H>> {
    var found := LookupOf(contents, path);
    LookupLongestPrefix(contents, path);
    if found.None? then None else Some(Dispatched(found.value.value, path[found.value.matchedIndex..]))
  }

  /** With distinct keys, the resource whose key is the longest stored prefix of `path` is where
      `path` belongs. */
  lemma LongestBelongs<H>(keys: set<Key>, resources: seq<Resource<H>>, i: nat, handler: H, path: Key, length: nat)
    requires DistinctKeys(resources)
    requires forall j :: 0 <= j < |resources| ==> KeyFromPath(resources[j].path) in keys
    requires length <= |path|
    requires forall key :: key in keys && key <= path ==> key <= path[..length]
    requires Serves(resources, i, path[..length], handler)
    ensures GoesTo(Dispatched(handler, path[length..]), resources, i, path)
  {
    var key := path[..length];
    assert key + path[length..] == path;
    forall j | 0 <= j < |resources| && KeyFromPath(resources[j].path) <= path
      ensures KeyFromPath(resources[j].path) <= key
      ensures j != i ==> |KeyFromPath(resources[j].path)| < |key|
    {
      var other := KeyFromPath(resources[j].path);
      assert other in keys;
      if |other| == |key| {
        assert other == key;
      }
    }
  }

  /** Dispatch is correct: when the resources have distinct keys, a request goes to the one with the
      longest key that is a prefix of its path, and key and unmatched path make up the whole path;
      it goes nowhere exactly when no key is a prefix. */
  lemma DispatchCorrect<H>(contents: map<Key, H>, resources: seq<Resource<H>>, path: Key)
    requires Indexes(contents, resources) && DistinctKeys(resources)
    ensures Dispatch(contents, path).None? <==>
              forall i :: 0 <= i < |resources| ==> !(KeyFromPath(resources[i].path) <= path)
    ensures Dispatch(contents, path).Some? ==>
              exists i :: 0 <= i < |resources| && GoesTo(Dispatch(contents, path).value, resources, i, path)
  {
    LookupLongestPrefix(contents, path);
    var found := LookupOf(contents, path);
    if found.Some? {
      var length := found.value.matchedIndex;
      var i :| Serves(resources, i, path[..length], found.value.value);
      LongestBelongs(contents.Keys, resources, i, found.value.value, path, length);
      assert GoesTo(Dispatch(contents, path).value, resources, i, path);
    } else {
      forall i | 0 <= i < |resources|
        ensures !(KeyFromPath(resources[i].path) <= path)
      {
        assert KeyFromPath(resources[i].path) in contents;
      }
    }
  }

  /** Resource `i` is where `path` belongs, and `d` takes it there. */
  ghost predicate GoesTo<H>(d: Dispatched<H>, resources: seq<Resource<H>>, i: nat, path: Key)
    requires i < |resources|
  {
    var key := KeyFromPath(resources[i].path);
    && d.handler == resources[i].handler
    && key + d.unmatchedPath == path
    && (forall j :: 0 <= j < |resources| && KeyFromPath(resources[j].path) <= path ==>
          KeyFromPath(resources[j].path) <= key && (j != i ==> |KeyFromPath(resources[j].path)| < |key|))
  }

  /** The table of handlers by path string, before normalisation. */
  ghost predicate TableOf<H>(handlers: map<string, H>, resources: seq<Resource<H>>) {
    && (forall i :: 0 <= i < |resources| ==> resources[i].path in handlers)
    && (forall path :: path in handlers ==> exists i :: Installed(resources, i, path, handlers[path]))
  }

  lemma InstallOneMore<H>(handlers: map<string, H>, resources: seq<Resource<H>>, next: Resource<H>)
    requires next.path in handlers && handlers[next.path] == next.handler
    requires forall i :: 0 <= i < |resources| ==> resources[i].path in handlers
    requires forall path :: path in handlers && path != next.path ==>
               exists i :: Installed(resources, i, path, handlers[path])
    ensures TableOf(handlers, resources + [next])
  {
    forall path | path in handlers
      ensures exists i :: Installed(resources + [next], i, path, handlers[path])
    {
      if path == next.path {
        assert Installed(resources + [next], |resources|, path, handlers[path]);
      } else {
        var i :| Installed(resources, i, path, handlers[path]);
        assert Installed(resources + [next], i, path, handlers[path]);
      }
    }
  }

  lemma TableIndexes<H>(handlers: map<string, H>, resources: seq<Resource<H>>, contents: map<Key, H>)
    requires TableOf(handlers, resources)
    requires contents.Keys == set path | path in handlers :: KeyFromPath(path)
    requires forall key :: key in contents ==>
               exists path :: path in handlers && KeyFromPath(path) == key && contents[key] == handlers[path]
    ensures Indexes(contents, resources)
  {
    forall key | key in contents
      ensures exists i :: Serves(resources, i, key, contents[key])
    {
      var path :| path in handlers && KeyFromPath(path) == key && contents[key] == handlers[path];
      var i :| Installed(resources, i, path, handlers[path]);
      assert Serves(resources, i, key, contents[key]);
    }
  }

  method Install<H>(resources: seq<Resource<H>>, discoverable: bool, core: H) returns (handlers: map<string, H>)
    ensures TableOf(handlers, AllResources(resources, discoverable, core))
  {
    handlers := map[];
    for n := 0 to |resources|
      invariant TableOf(handlers, resources[..n])
    {
      handlers := handlers[resources[n].path := resources[n].handler];
      InstallOneMore(handlers, resources[..n], resources[n]);
      assert resources[..n + 1] == resources[..n] + [resources[n]];
    }
    assert resources[..|resources|] == resources;
    if discoverable {
      handlers := handlers[CORE_PATH := core];
      InstallOneMore(handlers, resources, Resource(CORE_PATH, core));
    } else {
      assert AllResources(resources, discoverable, core) == resources;
    }
  }

  /** Where the routing of a packet ends. */
  datatype Routed = ToResource | ToManager(outcome: ReplyOutcome) | Pong(packet: Packet) | Ignored

  class AppHandler<H> {
    const handlersByPath: PathMatcher<H>
    const retransmissionManager: RetransmissionManager

    constructor FromBuilder(resources: seq<Resource<H>>, discoverable: bool, core: H, seed: MessageId)
      ensures fresh(handlersByPath) && fresh(retransmissionManager)
      ensures retransmissionManager.Valid() && retransmissionManager.View() == Fresh(seed)
      ensures retransmissionManager.parameters == SendLoop.DEFAULT
      ensures Indexes(handlersByPath.contents, AllResources(resources, discoverable, core))
      ensures forall i :: 0 <= i < |resources| ==> KeyFromPath(resources[i].path) in handlersByPath.contents
      ensures discoverable ==> CORE_KEY in handlersByPath.contents
      ensures forall key :: key in handlersByPath.contents ==>
                ComesFrom(key, handlersByPath.contents[key], resources, discoverable, core)
    {
      var handlers := Install(resources, discoverable, core);
      var matcher := new PathMatcher<H>.FromPathStrings(handlers);
      TableIndexes(handlers, AllResources(resources, discoverable, core), matcher.contents);
      IndexedSources(matcher.contents, resources, discoverable, core);
      var manager := new RetransmissionManager(SendLoop.DEFAULT, seed);
      handlersByPath, retransmissionManager := matcher, manager;
    }

    /** The path of a request is an error when it does not decode. */
    method TryHandleGet(paths: Result<Key, ()>) returns (result: Result<Dispatched<H>, CoapError>)
      ensures paths.Err? ==> result == Err(BadRequest)
      ensures paths.Ok? ==>
                var d := Dispatch(handlersByPath.contents, paths.value);
                result == if d.Some? then Ok(d.value) else Err(NotFound)
    {
      if paths.Err? {
        return Err(BadRequest);
      }
      var resource := handlersByPath.Lookup(paths.value);
      LookupLongestPrefix(handlersByPath.contents, paths.value);
      if resource.None? {
        return Err(NotFound);
      }
      result := Ok(Dispatched(resource.value.value, paths.value[resource.value.matchedIndex..]));
    }

    /** Only empty Acks and Resets reach the manager; an empty Confirmable is answered with a Reset
        of the same ID. */
    method HandlePacket(packet: Packet, peer: Endpoint) returns (routed: Routed)
      requires retransmissionManager.Valid()
      modifies retransmissionManager, retransmissionManager.channels
      ensures retransmissionManager.Valid()
      ensures retransmissionManager.View() ==
              if packet.code.Empty? then old(TakeReply(retransmissionManager.View(), packet, peer))
              else old(retransmissionManager.View())
      ensures routed.ToManager? <==> packet.code.Empty? && packet.kind in {Acknowledgement, Reset}
      ensures routed.ToManager? ==> routed.outcome == old(ReplyOutcomeOf(retransmissionManager.View(), packet, peer))
      ensures routed.Pong? <==> packet.code.Empty? && packet.kind == Confirmable
      ensures routed.Pong? ==> routed.packet.kind == Reset && routed.packet.code.Empty?
                               && routed.packet.messageId == packet.messageId && routed.packet.token == []
                               && routed.packet.observe.None? && routed.packet.payload == []
      ensures routed.Ignored? <==> packet.code.Response? || packet.code.Reserved?
                                   || (packet.code.Empty? && packet.kind == NonConfirmable)
      ensures routed.ToResource? <==> packet.code.Request?
    {
      match packet.code {
        case Request => routed := ToResource;
        case Response => routed := Ignored;
        case Reserved => routed := Ignored;
        case Empty =>
          if packet.kind == Acknowledgement || packet.kind == Reset {
            var outcome := retransmissionManager.MaybeHandleReply(packet, peer);
            routed := ToManager(outcome);
          } else if packet.kind == Confirmable {
            routed := Pong(Packet(Reset, Empty, packet.messageId, [], None, []));
          } else {
            routed := Ignored;
          }
      }
    }
  }
}
