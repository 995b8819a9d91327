/** The polling config watchers (src/reload.rs:11-33, 53-324): how file versions
    become reloads, and how reloads become the published configuration. */
module Reload {
  import opened Prelude

  // ------------------------------------------------------- from files to reloads

  /** The config file over time; a file that does not parse has no content. */
  datatype Version<C> = Deleted | File(mtime: nat, content: Option<C>)

  /** One tick: the versions on disk when it reads the metadata, parses, and, if
      that failed, parses again. */
  datatype Glance = Glance(meta: nat, first: nat, second: nat)

  datatype Track<C> = Track(lastMtime: nat, reloads: seq<C>)

  /** What the first of the two parses that succeeds yields. */
  function Parsed<C>(first: Version<C>, second: Version<C>): Option<C> {
    if first.File? && first.content.Some? then first.content
    else if second.File? then second.content
    else None
  }

  /** What a tick reloads, if it reloads: the mtime changed and the file parses. */
  function Noticed<C>(lastMtime: nat, meta: Version<C>, first: Version<C>, second: Version<C>): Option<C> {
    if meta.Deleted? || meta.mtime == lastMtime then None else Parsed(first, second)
  }

  predicate Within<C>(versions: seq<Version<C>>, g: Glance) {
    g.meta <= g.first <= g.second < |versions|
  }

  function Observe<C>(versions: seq<Version<C>>, t: Track<C>, g: Glance): Track<C>
    requires Within(versions, g)
  {
    match Noticed(t.lastMtime, versions[g.meta], versions[g.first], versions[g.second])
    case None => t
    case Some(c) => Track(versions[g.meta].mtime, t.reloads + [c])
  }

  /** Ticks do not go back in time. */
  ghost predicate Forward<C>(versions: seq<Version<C>>, gs: seq<Glance>) {
    && (forall i :: 0 <= i < |gs| ==> Within(versions, gs[i]))
    && (forall i :: 0 < i < |gs| ==> gs[i - 1].second <= gs[i].meta)
  }

  function StartMtime<C>(versions: seq<Version<C>>): nat
    requires versions != []
  {
    if versions[0].File? then versions[0].mtime else 0
  }

  function ObserveAll<C>(versions: seq<Version<C>>, gs: seq<Glance>): Track<C>
    requires versions != [] && forall i :: 0 <= i < |gs| ==> Within(versions, gs[i])
    decreases |gs|
  {
    if gs == [] then Track(StartMtime(versions), [])
    else Observe(versions, ObserveAll(versions, gs[..|gs| - 1]), gs[|gs| - 1])
  }

  ghost predicate DistinctMtimes<C>(versions: seq<Version<C>>) {
    && (forall i :: 0 <= i < |versions| && versions[i].File? ==> versions[i].mtime > 0)
    && (forall i, j :: 0 <= i < j < |versions| && versions[i].File? && versions[j].File? ==>
      versions[i].mtime != versions[j].mtime)
  }

  /** The last reload came from version `p`, noticed through version `j`. */
  ghost predicate CameFrom<C>(versions: seq<Version<C>>, t: Track<C>, j: nat, p: nat) {
    && j <= p < |versions| && t.reloads != []
    && versions[j].File? && versions[j].mtime == t.lastMtime
    && versions[p].File? && versions[p].content == Some(t.reloads[|t.reloads| - 1])
  }

  ghost predicate TrackInv<C>(versions: seq<Version<C>>, t: Track<C>)
    requires versions != []
  {
    || t == Track(StartMtime(versions), [])
    || exists j, p :: CameFrom(versions, t, j, p)
  }

  lemma {:induction false} ObserveKeepsInv<C>(versions: seq<Version<C>>, gs: seq<Glance>)
    requires versions != [] && Forward(versions, gs)
    ensures TrackInv(versions, ObserveAll(versions, gs))
    decreases |gs|
  {
    if gs != [] {
      var g, init := gs[|gs| - 1], gs[..|gs| - 1];
      ObserveKeepsInv(versions, init);
      var t := ObserveAll(versions, init);
      var t' := Observe(versions, t, g);
      if t' != t {
        var p := if versions[g.first].File? && versions[g.first].content.Some? then g.first else g.second;
        assert CameFrom(versions, t', g.meta, p);
      }
    }
  }

  /** A file that changed since startup and has settled in a state that parses is
      what was reloaded last, however the ticks fell among the earlier versions. */
  lemma SettledFileIsReloaded<C>(versions: seq<Version<C>>, gs: seq<Glance>, c: C)
    requires |versions| > 1 && DistinctMtimes(versions) && Forward(versions, gs)
    requires versions[|versions| - 1].File? && versions[|versions| - 1].content == Some(c)
    requires gs != [] && gs[|gs| - 1].meta == |versions| - 1
    ensures var r := ObserveAll(versions, gs).reloads; r != [] && r[|r| - 1] == c
  {
    var last := |versions| - 1;
    var init := gs[..|gs| - 1];
    ObserveKeepsInv(versions, init);
    var t := ObserveAll(versions, init);
    if t.lastMtime == versions[last].mtime {
      assert t != Track(StartMtime(versions), []);
      var j, p :| CameFrom(versions, t, j, p);
      assert j == last && p == last;
    }
  }

  /** And once it has been, a further look at it reloads nothing. */
  lemma SettledFileIsReloadedOnce<C>(versions: seq<Version<C>>, gs: seq<Glance>, c: C, g: Glance)
    requires |versions| > 1 && DistinctMtimes(versions) && Forward(versions, gs + [g])
    requires versions[|versions| - 1].File? && versions[|versions| - 1].content == Some(c)
    requires gs != [] && gs[|gs| - 1].meta == |versions| - 1
    ensures forall i :: 0 <= i < |gs| ==> Within(versions, gs[i])
    ensures Within(versions, g) && ObserveAll(versions, gs + [g]) == ObserveAll(versions, gs)
  {
    var all, last := gs + [g], |versions| - 1;
    assert forall i :: 0 <= i < |gs| ==> all[i] == gs[i];
    assert all[|gs|] == g && all[..|gs|] == gs;
    assert Within(versions, all[|gs|]) && all[|gs| - 1].second <= all[|gs|].meta;
    LooksAtTheLast(versions, gs, c);
  }

  lemma LooksAtTheLast<C>(versions: seq<Version<C>>, gs: seq<Glance>, c: C)
    requires versions != [] && (forall i :: 0 <= i < |gs| ==> Within(versions, gs[i]))
    requires versions[|versions| - 1].File? && versions[|versions| - 1].content == Some(c)
    requires gs != [] && gs[|gs| - 1].meta == |versions| - 1
    ensures ObserveAll(versions, gs).lastMtime == versions[|versions| - 1].mtime
  {
  }

  /** Nothing is reloaded while the file stays as it was at startup. */
  lemma {:induction false} SameFileIsNotReloaded<C>(versions: seq<Version<C>>, gs: seq<Glance>)
    requires |versions| == 1 && forall i :: 0 <= i < |gs| ==> Within(versions, gs[i])
    ensures ObserveAll(versions, gs) == Track(StartMtime(versions), [])
    decreases |gs|
  {
    if gs != [] {
      SameFileIsNotReloaded(versions, gs[..|gs| - 1]);
    }
  }

  // --------------------------------------------------------------------- shared

  /** A key is the one derived at startup or from a password in the file. */
  datatype Key = Startup | Derived(password: string)

  function TrimSlashes(s: string): string {
    if s != [] && s[|s| - 1] == '/' then TrimSlashes(s[..|s| - 1]) else s
  }

  /** What is left is the longest prefix that does not end in a slash. */
  lemma {:induction false} TrimIsLongest(s: string, q: string)
    ensures var p := TrimSlashes(s); p <= s && (p == [] || p[|p| - 1] != '/')
    ensures q <= s && (q == [] || q[|q| - 1] != '/') ==> q <= TrimSlashes(s)
    decreases |s|
  {
    if s != [] && s[|s| - 1] == '/' {
      TrimIsLongest(s[..|s| - 1], q);
    }
  }

  /** The latest non-empty password among the reloads. */
  function LatestPassword(passwords: seq<string>): string {
    if passwords == [] then []
    else if passwords[|passwords| - 1] != [] then passwords[|passwords| - 1]
    else LatestPassword(passwords[..|passwords| - 1])
  }

  lemma LatestSnoc(passwords: seq<string>, p: string)
    ensures LatestPassword(passwords + [p]) == if p != [] then p else LatestPassword(passwords)
  {
    assert (passwords + [p])[..|passwords|] == passwords;
  }

  function KeyFor(passwords: seq<string>, start: Key): Key {
    if LatestPassword(passwords) == [] then start else Derived(LatestPassword(passwords))
  }

  // --------------------------------------------------------------------- server

  datatype ServerConfig = ServerConfig(
    password: string, pathPrefix: string, rootRedirect: Option<string>, rootHtml: Option<string>,
    healthResponse: string, allowExec: bool, allowTransfer: bool)

  datatype HotServer = HotServer(
    key: Key, pathPrefix: string, rootRedirect: Option<string>, rootHtml: Option<string>,
    healthBody: string, allowExec: bool, allowTransfer: bool)

  datatype ServerOverrides = ServerOverrides(password: bool, allowExec: bool, allowTransfer: bool)

  datatype ServerState = ServerState(lastPassword: string, hot: HotServer)

  /** Everything but the key, as a reload publishes it. */
  function PublishServer(start: HotServer, ov: ServerOverrides, c: ServerConfig, key: Key): HotServer {
    HotServer(key, TrimSlashes(c.pathPrefix), c.rootRedirect, c.rootHtml, c.healthResponse,
      if ov.allowExec then start.allowExec else c.allowExec,
      if ov.allowTransfer then start.allowTransfer else c.allowTransfer)
  }

  function RekeysServer(s: ServerState, ov: ServerOverrides, c: ServerConfig): bool {
    !ov.password && c.password != [] && c.password != s.lastPassword
  }

  /** One reload; `kdf` says whether deriving a key succeeded. */
  function ReloadServer(s: ServerState, ov: ServerOverrides, c: ServerConfig, kdf: bool): ServerState {
    var rekeyed := RekeysServer(s, ov, c) && kdf;
    var next := PublishServer(s.hot, ov, c, if rekeyed then Derived(c.password) else s.hot.key);
    if !rekeyed && next == s.hot then s else ServerState(c.password, next)
  }

  /** The watcher's loop body, over what one tick sees. */
  class ServerWatcher {
    var lastMtime: nat
    var lastPassword: string
    var fileMissing: bool
    var hot: HotServer
    const overrides: ServerOverrides

    function State(): ServerState
      reads this
    {
      ServerState(lastPassword, hot)
    }

    constructor (mtime: nat, start: HotServer, overrides: ServerOverrides)
      ensures lastMtime == mtime && State() == ServerState([], start) && this.overrides == overrides && !fileMissing
    {
      lastMtime, lastPassword, fileMissing, hot := mtime, [], false, start;
      this.overrides := overrides;
    }

    method Tick(meta: Version<ServerConfig>, first: Version<ServerConfig>, second: Version<ServerConfig>, kdf: bool)
      modifies this
      ensures fileMissing == meta.Deleted?
      ensures var c := Noticed(old(lastMtime), meta, first, second);
        if c.None? then lastMtime == old(lastMtime) && State() == old(State())
        else lastMtime == meta.mtime && State() == ReloadServer(old(State()), overrides, c.value, kdf)
    {
      hide ReloadServer;
      if meta.Deleted? {
        fileMissing := true;
        return;
      }
      fileMissing := false;
      if meta.mtime == lastMtime {
        return;
      }
      var parsed := if first.File? then first.content else None;
      if parsed.None? {
        parsed := if second.File? then second.content else None;
        if parsed.None? {
          return;
        }
      }
      lastMtime := meta.mtime;
      Apply(parsed.value, kdf);
    }

    method Apply(sc: ServerConfig, kdf: bool)
      modifies `lastPassword, `hot
      ensures State() == ReloadServer(old(State()), overrides, sc, kdf)
    {
      hide TrimSlashes;
      var changed := false;
      var key := hot.key;
      if !overrides.password && sc.password != [] && sc.password != lastPassword && kdf {
        key, changed := Derived(sc.password), true;
      }
      var pathPrefix := TrimSlashes(sc.pathPrefix);
      var allowExec := if overrides.allowExec then hot.allowExec else sc.allowExec;
      var allowTransfer := if overrides.allowTransfer then hot.allowTransfer else sc.allowTransfer;
      if pathPrefix != hot.pathPrefix || sc.rootRedirect != hot.rootRedirect || sc.rootHtml != hot.rootHtml {
        changed := true;
      }
      if sc.healthResponse != hot.healthBody || allowExec != hot.allowExec || allowTransfer != hot.allowTransfer {
        changed := true;
      }
      if !changed {
        return;
      }
      lastPassword := sc.password;
      hot := HotServer(key, pathPrefix, sc.rootRedirect, sc.rootHtml, sc.healthResponse, allowExec, allowTransfer);
    }
  }

  /** All reloads in turn, key derivation succeeding. */
  function ServerAfter(start: HotServer, ov: ServerOverrides, reloads: seq<ServerConfig>): ServerState {
    if reloads == [] then ServerState([], start)
    else ReloadServer(ServerAfter(start, ov, reloads[..|reloads| - 1]), ov, reloads[|reloads| - 1], true)
  }

  function ServerPasswords(reloads: seq<ServerConfig>): seq<string> {
    if reloads == [] then [] else ServerPasswords(reloads[..|reloads| - 1]) + [reloads[|reloads| - 1].password]
  }

  /** Over any run of reloads: overridden fields never move, the others are those
      of the last reload, and the key is the startup one or that of the latest
      non-empty password. */
  lemma {:induction false} ServerPublishesTheLastReload(start: HotServer, ov: ServerOverrides,
      reloads: seq<ServerConfig>)
    ensures var s := ServerAfter(start, ov, reloads);
      && s.hot == (if reloads == [] then start else PublishServer(start, ov, reloads[|reloads| - 1], s.hot.key))
      && s.hot.key == (if ov.password then start.key else KeyFor(ServerPasswords(reloads), start.key))
      && (!ov.password && s.lastPassword != [] ==> s.lastPassword == LatestPassword(ServerPasswords(reloads)))
    decreases |reloads|
  {
    if reloads != [] {
      var init := reloads[..|reloads| - 1];
      ServerPublishesTheLastReload(start, ov, init);
      LatestSnoc(ServerPasswords(init), reloads[|reloads| - 1].password);
      hide LatestPassword, TrimSlashes;
    }
  }

  /** The same field by field: what the command line overrides stays as it was at
      startup, whatever the file says, and everything else is the last reload's. */
  lemma ServerFieldsFollowTheFile(start: HotServer, ov: ServerOverrides, reloads: seq<ServerConfig>)
    requires reloads != []
    ensures var hot, last := ServerAfter(start, ov, reloads).hot, reloads[|reloads| - 1];
      && (ov.allowExec ==> hot.allowExec == start.allowExec)
      && (!ov.allowExec ==> hot.allowExec == last.allowExec)
      && (ov.allowTransfer ==> hot.allowTransfer == start.allowTransfer)
      && (!ov.allowTransfer ==> hot.allowTransfer == last.allowTransfer)
      && hot.rootRedirect == last.rootRedirect && hot.rootHtml == last.rootHtml
      && hot.healthBody == last.healthResponse
      && hot.pathPrefix <= last.pathPrefix
      && (hot.pathPrefix == [] || hot.pathPrefix[|hot.pathPrefix| - 1] != '/')
      && forall q: string :: q <= last.pathPrefix && (q == [] || q[|q| - 1] != '/') ==> q <= hot.pathPrefix
  {
    ServerPublishesTheLastReload(start, ov, reloads);
    var last := reloads[|reloads| - 1];
    forall q: string {
      TrimIsLongest(last.pathPrefix, q);
    }
    hide TrimSlashes, ServerAfter, KeyFor;
  }

  /** The same content reloaded again, nothing having failed, changes nothing. */
  lemma SameContentIsStable(s: ServerState, ov: ServerOverrides, c: ServerConfig)
    ensures var once := ReloadServer(s, ov, c, true); ReloadServer(once, ov, c, true) == once
    ensures RekeysServer(s, ov, c) ==> !RekeysServer(ReloadServer(s, ov, c, true), ov, c)
  {
    hide TrimSlashes;
  }

  /** The file's last word is what the server publishes: a changed file that has
      settled in a parsable state, seen by one more tick, is the configuration. */
  lemma ServerConverges(versions: seq<Version<ServerConfig>>, gs: seq<Glance>, c: ServerConfig, start: HotServer,
      ov: ServerOverrides)
    requires |versions| > 1 && DistinctMtimes(versions) && Forward(versions, gs)
    requires versions[|versions| - 1].File? && versions[|versions| - 1].content == Some(c)
    requires gs != [] && gs[|gs| - 1].meta == |versions| - 1
    ensures var s := ServerAfter(start, ov, ObserveAll(versions, gs).reloads);
      && s.hot == HotServer(s.hot.key, TrimSlashes(c.pathPrefix), c.rootRedirect, c.rootHtml, c.healthResponse,
        if ov.allowExec then start.allowExec else c.allowExec,
        if ov.allowTransfer then start.allowTransfer else c.allowTransfer)
      && (!ov.password && c.password != [] ==> s.hot.key == Derived(c.password))
  {
    SettledFileIsReloaded(versions, gs, c);
    var r := ObserveAll(versions, gs).reloads;
    ServerPublishesTheLastReload(start, ov, r);
    assert ServerPasswords(r)[|ServerPasswords(r)| - 1] == c.password;
  }

  /** The same file reloaded again and again, whenever its mtime changes; `kdfs` says
      which of the derivations succeed. */
  function ServerAgain(s: ServerState, ov: ServerOverrides, c: ServerConfig, kdfs: seq<bool>): ServerState
    decreases |kdfs|
  {
    if kdfs == [] then s else ServerAgain(ReloadServer(s, ov, c, kdfs[0]), ov, c, kdfs[1..])
  }

  lemma {:induction false} ServerSettled(s: ServerState, ov: ServerOverrides, c: ServerConfig, kdfs: seq<bool>)
    requires s.lastPassword == c.password && PublishServer(s.hot, ov, c, s.hot.key) == s.hot
    ensures ServerAgain(s, ov, c, kdfs) == s
    decreases |kdfs|
  {
    hide TrimSlashes;
    if kdfs != [] {
      ServerSettled(s, ov, c, kdfs[1..]);
    }
  }

  lemma ServerOnceMore(s: ServerState, ov: ServerOverrides, c: ServerConfig)
    ensures ServerAgain(s, ov, c, [true]) == ReloadServer(s, ov, c, true)
  {
    hide ReloadServer;
    assert [true][1..] == [];
  }

  /** When a derivation fails, the outcome depends on whether anything else changed
      with the password. If so, the password counts as applied, and no reload of the
      same content, however many there are, derives its key; if not, the next one
      that can does. */
  lemma FailedDerivationSticksExactly(s: ServerState, ov: ServerOverrides, c: ServerConfig)
    requires RekeysServer(s, ov, c) && s.hot.key != Derived(c.password)
    ensures var failed := ReloadServer(s, ov, c, false);
      && failed.hot.key == s.hot.key
      && ((exists kdfs :: ServerAgain(failed, ov, c, kdfs).hot.key == Derived(c.password)) <==>
            PublishServer(s.hot, ov, c, s.hot.key) == s.hot)
  {
    hide TrimSlashes;
    var failed := ReloadServer(s, ov, c, false);
    if PublishServer(s.hot, ov, c, s.hot.key) == s.hot {
      ServerOnceMore(s, ov, c);
      assert ServerAgain(failed, ov, c, [true]).hot.key == Derived(c.password);
    } else {
      forall kdfs ensures ServerAgain(failed, ov, c, kdfs).hot.key != Derived(c.password) {
        ServerSettled(failed, ov, c, kdfs);
      }
    }
  }

  // --------------------------------------------------------------------- client

  type Headers = map<string, string>

  datatype ClientConfig = ClientConfig(password: string, headers: Headers, serverUrl: string)

  datatype HotClient = HotClient(key: Key, headers: Headers, serverUrl: string)

  datatype ClientOverrides = ClientOverrides(password: bool, headers: bool)

  datatype ClientState = ClientState(lastPassword: string, lastHeaders: Headers, hot: HotClient)

  predicate RekeysClient(s: ClientState, ov: ClientOverrides, c: ClientConfig) {
    !ov.password && c.password != [] && c.password != s.lastPassword
  }

  predicate RebuildsClient(s: ClientState, ov: ClientOverrides, c: ClientConfig) {
    !ov.headers && c.headers != s.lastHeaders
  }

  /** One reload; `build` says whether an HTTP client could be built. */
  function ReloadClient(s: ClientState, ov: ClientOverrides, c: ClientConfig, kdf: bool, build: bool): (ClientState,
      bool) {
    var rekeyed := RekeysClient(s, ov, c) && kdf;
    var rebuilt := RebuildsClient(s, ov, c) && build;
    var url := TrimSlashes(c.serverUrl);
    if !rekeyed && !rebuilt && url == s.hot.serverUrl then (s, false)
    else (ClientState(c.password, c.headers,
            HotClient(if rekeyed then Derived(c.password) else s.hot.key, if rebuilt then c.headers
              else s.hot.headers, url)),
          true)
  }

  class ClientWatcher {
    var lastMtime: nat
    var lastPassword: string
    var lastHeaders: Headers
    var fileMissing: bool
    var hot: HotClient
    var rotations: nat        // session ids replaced, with the table cleared and the signal fired
    const overrides: ClientOverrides

    function State(): ClientState
      reads this
    {
      ClientState(lastPassword, lastHeaders, hot)
    }

    constructor (mtime: nat, start: HotClient, overrides: ClientOverrides)
      ensures lastMtime == mtime && State() == ClientState([], map[], start) && rotations == 0
      ensures this.overrides == overrides && !fileMissing
    {
      lastMtime, lastPassword, lastHeaders, fileMissing, hot, rotations := mtime, [], map[], false, start, 0;
      this.overrides := overrides;
    }

    method Tick(meta: Version<ClientConfig>, first: Version<ClientConfig>, second: Version<ClientConfig>, kdf: bool,
        build: bool)
      modifies this
      ensures fileMissing == meta.Deleted?
      ensures var c := Noticed(old(lastMtime), meta, first, second);
        if c.None? then lastMtime == old(lastMtime) && State() == old(State()) && rotations == old(rotations)
        else
          && lastMtime == meta.mtime
          && State() == ReloadClient(old(State()), overrides, c.value, kdf, build).0
          && rotations == old(rotations) +
            (if ReloadClient(old(State()), overrides, c.value, kdf, build).1 then 1 else 0)
    {
      hide ReloadClient;
      if meta.Deleted? {
        fileMissing := true;
        return;
      }
      fileMissing := false;
      if meta.mtime == lastMtime {
        return;
      }
      var parsed := if first.File? then first.content else None;
      if parsed.None? {
        parsed := if second.File? then second.content else None;
        if parsed.None? {
          return;
        }
      }
      lastMtime := meta.mtime;
      Apply(parsed.value, kdf, build);
    }

    method Apply(cc: ClientConfig, kdf: bool, build: bool)
      modifies `lastPassword, `lastHeaders, `hot, `rotations
      ensures State() == ReloadClient(old(State()), overrides, cc, kdf, build).0
      ensures rotations == old(rotations) + (if ReloadClient(old(State()), overrides, cc, kdf, build).1 then 1 else 0)
    {
      hide TrimSlashes;
      var needsReconnect := false;
      var key, headers, url := hot.key, hot.headers, hot.serverUrl;
      if !overrides.password && cc.password != [] && cc.password != lastPassword && kdf {
        key, needsReconnect := Derived(cc.password), true;
      }
      if !overrides.headers && cc.headers != lastHeaders && build {
        headers, needsReconnect := cc.headers, true;
      }
      if TrimSlashes(cc.serverUrl) != hot.serverUrl {
        url, needsReconnect := TrimSlashes(cc.serverUrl), true;
      }
      if !needsReconnect {
        return;
      }
      lastPassword, lastHeaders := cc.password, cc.headers;
      hot := HotClient(key, headers, url);
      rotations := rotations + 1;
    }
  }

  /** All reloads in turn, with every derivation and build succeeding. */
  function ClientAfter(start: HotClient, ov: ClientOverrides, reloads: seq<ClientConfig>): ClientState {
    if reloads == [] then ClientState([], map[], start)
    else ReloadClient(ClientAfter(start, ov, reloads[..|reloads| - 1]), ov, reloads[|reloads| - 1], true, true).0
  }

  function ClientPasswords(reloads: seq<ClientConfig>): seq<string> {
    if reloads == [] then [] else ClientPasswords(reloads[..|reloads| - 1]) + [reloads[|reloads| - 1].password]
  }

  ghost predicate SomeHeaders(reloads: seq<ClientConfig>) {
    exists i :: 0 <= i < |reloads| && reloads[i].headers != map[]
  }

  /** The client's URL and key follow the file as the server's do. */
  lemma {:induction false} ClientPublishesUrlAndKey(start: HotClient, ov: ClientOverrides, reloads: seq<ClientConfig>)
    ensures var s := ClientAfter(start, ov, reloads);
      && s.hot.serverUrl == (if reloads == [] then start.serverUrl else TrimSlashes(reloads[|reloads| - 1].serverUrl))
      && s.hot.key == (if ov.password then start.key else KeyFor(ClientPasswords(reloads), start.key))
      && (!ov.password && s.lastPassword != [] ==> s.lastPassword == LatestPassword(ClientPasswords(reloads)))
    decreases |reloads|
  {
    hide TrimSlashes;
    if reloads != [] {
      var init := reloads[..|reloads| - 1];
      ClientPublishesUrlAndKey(start, ov, init);
      LatestSnoc(ClientPasswords(init), reloads[|reloads| - 1].password);
      hide LatestPassword;
    }
  }

  lemma SomeHeadersSnoc(reloads: seq<ClientConfig>)
    ensures SomeHeaders(reloads) <==>
      reloads != [] && (SomeHeaders(reloads[..|reloads| - 1]) || reloads[|reloads| - 1].headers != map[])
  {
    if reloads == [] {
      return;
    }
    var init := reloads[..|reloads| - 1];
    if SomeHeaders(init) {
      var i :| 0 <= i < |init| && init[i].headers != map[];
      assert reloads[i].headers != map[];
    }
  }

  /** The headers follow the file only once some reload had any, because the
      watcher starts out believing that the last headers were none. */
  lemma {:induction false} ClientPublishesHeaders(start: HotClient, ov: ClientOverrides, reloads: seq<ClientConfig>)
    ensures var s := ClientAfter(start, ov, reloads);
      && s.hot.headers == (if !ov.headers && SomeHeaders(reloads) then reloads[|reloads| - 1].headers
        else start.headers)
      && (!ov.headers ==> s.lastHeaders == (if SomeHeaders(reloads) then reloads[|reloads| - 1].headers else map[]))
    decreases |reloads|
  {
    hide TrimSlashes, SomeHeaders;
    SomeHeadersSnoc(reloads);
    if reloads != [] {
      ClientPublishesHeaders(start, ov, reloads[..|reloads| - 1]);
    }
  }

  /** So a removed header set is applied exactly when some reload since startup
      had headers, or there were none to remove. */
  lemma HeadersConvergeExactly(start: HotClient, ov: ClientOverrides, reloads: seq<ClientConfig>)
    requires reloads != [] && !ov.headers
    ensures ClientAfter(start, ov, reloads).hot.headers == reloads[|reloads| - 1].headers <==>
      SomeHeaders(reloads) || start.headers == map[]
  {
    ClientPublishesHeaders(start, ov, reloads);
    if !SomeHeaders(reloads) {
      assert reloads[|reloads| - 1].headers == map[];
    }
  }

  /** The same file reloaded again and again, with the fates of each derivation and
      each build. */
  function ClientAgain(s: ClientState, ov: ClientOverrides, c: ClientConfig, fates: seq<(bool, bool)>): ClientState
    decreases |fates|
  {
    if fates == [] then s else ClientAgain(ReloadClient(s, ov, c, fates[0].0, fates[0].1).0, ov, c, fates[1..])
  }

  lemma {:induction false} ClientSettled(s: ClientState, ov: ClientOverrides, c: ClientConfig, fates: seq<(bool, bool)>)
    requires s.lastPassword == c.password && s.lastHeaders == c.headers && s.hot.serverUrl == TrimSlashes(c.serverUrl)
    ensures ClientAgain(s, ov, c, fates) == s
    decreases |fates|
  {
    hide TrimSlashes;
    if fates != [] {
      ClientSettled(s, ov, c, fates[1..]);
    }
  }

  lemma ClientOnceMore(s: ClientState, ov: ClientOverrides, c: ClientConfig)
    ensures ClientAgain(s, ov, c, [(true, true)]) == ReloadClient(s, ov, c, true, true).0
  {
    hide ReloadClient;
    assert [(true, true)][1..] == [];
  }

  /** The client's watcher has the same defect twice over: a failed derivation sticks
      exactly if the URL changed with the password or a new set of headers was
      built, a failed build exactly if the URL changed with the headers or a new key
      was derived. */
  lemma ClientFailureSticksExactly(s: ClientState, ov: ClientOverrides, c: ClientConfig, kdf: bool, build: bool)
    ensures var failed := ReloadClient(s, ov, c, kdf, build).0;
      var sameUrl := TrimSlashes(c.serverUrl) == s.hot.serverUrl;
      && (RekeysClient(s, ov, c) && !kdf && s.hot.key != Derived(c.password) ==>
            ((exists fates :: ClientAgain(failed, ov, c, fates).hot.key == Derived(c.password)) <==>
               sameUrl && !(RebuildsClient(s, ov, c) && build)))
      && (RebuildsClient(s, ov, c) && !build && s.hot.headers != c.headers ==>
            ((exists fates :: ClientAgain(failed, ov, c, fates).hot.headers == c.headers) <==>
               sameUrl && !(RekeysClient(s, ov, c) && kdf)))
  {
    hide TrimSlashes;
    var (failed, changed) := ReloadClient(s, ov, c, kdf, build);
    if changed {
      forall fates ensures ClientAgain(failed, ov, c, fates) == failed {
        ClientSettled(failed, ov, c, fates);
      }
    } else {
      ClientOnceMore(s, ov, c);
    }
  }

  /** The same content reloaded again, nothing having failed, changes nothing and
      rotates nothing. */
  lemma SameContentIsQuiet(s: ClientState, ov: ClientOverrides, c: ClientConfig)
    ensures var once := ReloadClient(s, ov, c, true, true).0; ReloadClient(once, ov, c, true, true) == (once, false)
  {
    hide TrimSlashes;
  }

  /** A reload rotates exactly if it changes what the session was opened with, or
      derives or builds it anew. */
  lemma RotatesExactly(s: ClientState, ov: ClientOverrides, c: ClientConfig, kdf: bool, build: bool)
    ensures var (s', rotates) := ReloadClient(s, ov, c, kdf, build);
      && (s'.hot != s.hot ==> rotates)
      && (rotates ==>
            || s'.hot.serverUrl != s.hot.serverUrl
            || (!ov.password && s.lastPassword != c.password && s'.hot.key == Derived(c.password))
            || (!ov.headers && s.lastHeaders != c.headers && s'.hot.headers == c.headers))
      && (!rotates ==> s' == s)
  {
    hide TrimSlashes;
  }

  /** The first reload rotates the session even when the file says what startup
      said, provided it names a password that the command line does not override. */
  lemma FirstReloadRotates(start: HotClient, ov: ClientOverrides, c: ClientConfig)
    requires c.serverUrl == start.serverUrl == TrimSlashes(start.serverUrl) && c.headers == start.headers
    ensures ReloadClient(ClientState([], map[], start), ov, c, true, true).1 <==>
      (!ov.password && c.password != []) || (!ov.headers && c.headers != map[])
  {
  }
}
