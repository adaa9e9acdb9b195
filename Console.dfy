/** The operator console's dashboard (`client/src/App.tsx`): how the registry
    snapshot is grouped into tabs, how buttons and state tags are derived from
    it, and the click, confirmation and status bookkeeping around each command.
    HTTP round trips and timers are events the caller feeds in. */
module Console {
  import opened JsValues
  import opened JsStrings
  import opened Actions

  /** One entry of the registry snapshot the hub publishes. */
  datatype ConnectedGame = ConnectedGame(
    socketId: string,
    gameId: string,
    role: Option<string>,
    name: string,
    availableActions: seq<GameAction>,
    state: Entries)

  datatype ExpectedInstance = ExpectedInstance(gameId: string, name: string, role: Option<string>)

  datatype PredefinedGame = PredefinedGame(baseId: string, displayName: string, expectedInstances: seq<ExpectedInstance>)

  /** One tab of the dashboard. */
  datatype GameGroup = GameGroup(
    baseId: string,
    displayName: string,
    instances: seq<ConnectedGame>,
    expectedInstances: seq<ExpectedInstance>,
    isConnected: bool)

  /** The games whose tabs are always shown, in tab order. */
  const PredefinedGames: seq<PredefinedGame> := [
    PredefinedGame("labyrinthe", "Labyrinthe", [
      ExpectedInstance("labyrinthe:explorer", "Explorateur", Some("explorer")),
      ExpectedInstance("labyrinthe:protector", "Protecteur", Some("protector"))]),
    PredefinedGame("sidequest", "Sidequest", [
      ExpectedInstance("sidequest-computer", "Computer", None),
      ExpectedInstance("sidequest-uplink", "Uplink", None)])
  ]

  /** `GAME_GROUP_PREFIXES`: game ids that share a tab although they have no `:` role suffix. */
  function GroupPrefix(rawBase: string): (r: Option<string>)
    ensures r.Some? <==> rawBase == "sidequest-computer" || rawBase == "sidequest-uplink"
    ensures r.Some? ==> r.value == "sidequest"
  {
    if rawBase == "sidequest-computer" || rawBase == "sidequest-uplink" then Some("sidequest") else None
  }

  /** The tab a game belongs to: the part of its id before the first `:`,
      renamed by the prefix table where it has an entry. */
  function BaseId(gameId: string): (r: string)
    ensures GroupPrefix(SplitHead(gameId, ':')).Some? ==> r == "sidequest"
    ensures GroupPrefix(SplitHead(gameId, ':')).None? ==> r == SplitHead(gameId, ':')
  {
    var rawBase := SplitHead(gameId, ':');
    match GroupPrefix(rawBase)
    case Some(b) => b
    case None => rawBase
  }

  /** A role-qualified id `base:role` belongs to the tab of its base. */
  lemma BaseIdOfRole(base: string, role: string)
    requires ':' !in base && GroupPrefix(base).None?
    ensures BaseId(base + ":" + role) == base
  {
    SplitHeadOfJoin(base, ':', role);
    assert base + ":" + role == base + [':'] + role;
  }

  // ---- The JavaScript `Map` built by `groupConnectedGames` ----

  /** A `Map<string, ConnectedGame[]>`: entries in insertion order. */
  type Groups = seq<(string, seq<ConnectedGame>)>

  predicate KeysDistinct(gs: Groups)
  {
    forall i, j :: 0 <= i < j < |gs| ==> gs[i].0 != gs[j].0
  }

  predicate HasKey(gs: Groups, k: string)
  {
    exists i :: 0 <= i < |gs| && gs[i].0 == k
  }

  function FindKey(gs: Groups, k: string): (r: Option<nat>)
    ensures r.None? <==> !HasKey(gs, k)
    ensures r.Some? ==> r.value < |gs| && gs[r.value].0 == k && forall i :: 0 <= i < r.value ==> gs[i].0 != k
  {
    if gs == [] then None
    else if gs[0].0 == k then Some(0)
    else match FindKey(gs[1..], k)
      case None => None
      case Some(j) => Some(j + 1)
  }

  /** `groups.get(k) ?? []`: the list of the first entry with key `k`, or
      nothing when there is no such entry. */
  function Get(gs: Groups, k: string): (r: seq<ConnectedGame>)
    ensures !HasKey(gs, k) ==> r == []
    ensures forall i :: 0 <= i < |gs| && gs[i].0 == k && (forall j :: 0 <= j < i ==> gs[j].0 != k) ==> r == gs[i].1
  {
    match FindKey(gs, k)
    case Some(j) => gs[j].1
    case None => []
  }

  /** `groups.set(k, list)`: replaces the entry in place, or appends a new
      one; the other entries keep their place and contents. */
  function Set(gs: Groups, k: string, list: seq<ConnectedGame>): (r: Groups)
    ensures HasKey(gs, k) ==> |r| == |gs|
    ensures !HasKey(gs, k) ==> |r| == |gs| + 1 && r[|gs|] == (k, list)
    ensures forall i :: 0 <= i < |gs| && gs[i].0 != k ==> r[i] == gs[i]
  {
    match FindKey(gs, k)
    case Some(j) => gs[j := (k, list)]
    case None => gs + [(k, list)]
  }

  /** The number of games held by all entries together. */
  function TotalSize(gs: Groups): nat
  {
    if gs == [] then 0 else TotalSize(gs[..|gs| - 1]) + |gs[|gs| - 1].1|
  }

  lemma {:induction false} TotalSizeUpdate(gs: Groups, j: nat, x: (string, seq<ConnectedGame>))
    requires j < |gs|
    ensures TotalSize(gs[j := x]) == TotalSize(gs) - |gs[j].1| + |x.1|
    decreases |gs|
  {
    var n := |gs| - 1;
    if j < n {
      TotalSizeUpdate(gs[..n], j, x);
      assert gs[j := x][..n] == gs[..n][j := x];
    } else {
      assert gs[j := x][..n] == gs[..n];
    }
  }

  /** With distinct keys, looking up an entry's key finds that entry. */
  lemma {:induction false} FindKeyOfDistinct(gs: Groups, i: nat)
    requires KeysDistinct(gs) && i < |gs|
    ensures FindKey(gs, gs[i].0) == Some(i)
  {
    var r := FindKey(gs, gs[i].0);
    assert HasKey(gs, gs[i].0);
  }

  lemma SetKeys(gs: Groups, k: string, list: seq<ConnectedGame>)
    requires KeysDistinct(gs)
    ensures KeysDistinct(Set(gs, k, list))
    ensures forall k' :: HasKey(Set(gs, k, list), k') <==> HasKey(gs, k') || k' == k
  {
    var s := Set(gs, k, list);
    assert forall i :: 0 <= i < |gs| ==> s[i].0 == gs[i].0;
    if FindKey(gs, k).None? {
      assert s[|gs|].0 == k;
    }
    forall k' | HasKey(gs, k') ensures HasKey(s, k') {
      var m :| 0 <= m < |gs| && gs[m].0 == k';
      assert s[m].0 == k';
    }
  }

  lemma SetGet(gs: Groups, k: string, list: seq<ConnectedGame>, k': string)
    requires KeysDistinct(gs)
    ensures Get(Set(gs, k, list), k') == if k' == k then list else Get(gs, k')
  {
    var s := Set(gs, k, list);
    SetKeys(gs, k, list);
    if k' == k {
      var j := match FindKey(gs, k) case Some(j) => j case None => |gs|;
      assert s[j] == (k, list);
      FindKeyOfDistinct(s, j);
    } else if HasKey(gs, k') {
      var m := FindKey(gs, k').value;
      assert s[m] == gs[m];
      FindKeyOfDistinct(s, m);
    }
  }

  lemma SetSize(gs: Groups, k: string, list: seq<ConnectedGame>)
    requires KeysDistinct(gs)
    ensures TotalSize(Set(gs, k, list)) == TotalSize(gs) - |Get(gs, k)| + |list|
  {
    match FindKey(gs, k)
    case Some(j) =>
      TotalSizeUpdate(gs, j, (k, list));
    case None =>
      assert (gs + [(k, list)])[..|gs|] == gs;
  }

  /** Reference definition of the grouping: the games of `games` that belong to
      tab `k`, in input order. */
  function Members(games: seq<ConnectedGame>, k: string): (r: seq<ConnectedGame>)
    ensures |r| <= |games|
    ensures forall g :: g in r ==> g in games && BaseId(g.gameId) == k
    ensures forall g :: g in games && BaseId(g.gameId) == k ==> g in r
  {
    if games == [] then []
    else
      var last := games[|games| - 1];
      Members(games[..|games| - 1], k) + (if BaseId(last.gameId) == k then [last] else [])
  }

  /** What the grouping loop builds: the `Map` after inserting every game in
      order; it has no more entries than there are games. */
  function Grouped(games: seq<ConnectedGame>): (r: Groups)
    ensures |r| <= |games|
  {
    if games == [] then []
    else
      var prev := Grouped(games[..|games| - 1]);
      var game := games[|games| - 1];
      var baseId := BaseId(game.gameId);
      Set(prev, baseId, Get(prev, baseId) + [game])
  }

  lemma {:induction false} GroupedKeysDistinct(games: seq<ConnectedGame>)
    ensures KeysDistinct(Grouped(games))
    decreases |games|
  {
    if games != [] {
      var init := games[..|games| - 1];
      var baseId := BaseId(games[|games| - 1].gameId);
      GroupedKeysDistinct(init);
      SetKeys(Grouped(init), baseId, Get(Grouped(init), baseId) + [games[|games| - 1]]);
    }
  }

  lemma {:induction false} GroupedGet(games: seq<ConnectedGame>)
    ensures forall k :: Get(Grouped(games), k) == Members(games, k)
    decreases |games|
  {
    if games != [] {
      var init := games[..|games| - 1];
      var game := games[|games| - 1];
      var prev := Grouped(init);
      var baseId := BaseId(game.gameId);
      GroupedKeysDistinct(init);
      GroupedGet(init);
      forall k ensures Get(Grouped(games), k) == Members(games, k) {
        SetGet(prev, baseId, Get(prev, baseId) + [game], k);
      }
    }
  }

  lemma {:induction false} GroupedSize(games: seq<ConnectedGame>)
    ensures TotalSize(Grouped(games)) == |games|
    decreases |games|
  {
    if games != [] {
      var init := games[..|games| - 1];
      var prev := Grouped(init);
      var baseId := BaseId(games[|games| - 1].gameId);
      GroupedKeysDistinct(init);
      GroupedSize(init);
      SetSize(prev, baseId, Get(prev, baseId) + [games[|games| - 1]]);
    }
  }

  lemma {:induction false} GroupedKeys(games: seq<ConnectedGame>)
    ensures forall k :: HasKey(Grouped(games), k) <==> exists g :: g in games && BaseId(g.gameId) == k
    decreases |games|
  {
    if games != [] {
      var init := games[..|games| - 1];
      var game := games[|games| - 1];
      var prev := Grouped(init);
      var baseId := BaseId(game.gameId);
      GroupedKeysDistinct(init);
      GroupedKeys(init);
      SetKeys(prev, baseId, Get(prev, baseId) + [game]);
      assert games == init + [game];
      forall k ensures HasKey(Grouped(games), k) <==> exists g :: g in games && BaseId(g.gameId) == k {
        if exists g :: g in games && BaseId(g.gameId) == k {
          var g :| g in games && BaseId(g.gameId) == k;
          if g != game {
            assert g in init;
          }
        }
      }
    }
  }

  /** The grouping is a partition of its input: one entry per tab, each holding
      exactly that tab's games in input order, and no game counted twice. */
  lemma GroupedPartition(games: seq<ConnectedGame>)
    ensures KeysDistinct(Grouped(games))
    ensures TotalSize(Grouped(games)) == |games|
    ensures forall k :: Get(Grouped(games), k) == Members(games, k)
    ensures forall k :: HasKey(Grouped(games), k) <==> exists g :: g in games && BaseId(g.gameId) == k
  {
    GroupedKeysDistinct(games);
    GroupedSize(games);
    GroupedGet(games);
    GroupedKeys(games);
  }

  /** `groupConnectedGames`. */
  method GroupConnectedGames(games: seq<ConnectedGame>) returns (groups: Groups)
    ensures groups == Grouped(games)
    ensures KeysDistinct(groups) && TotalSize(groups) == |games|
    ensures forall k :: Get(groups, k) == Members(games, k)
  {
    groups := [];
    var i := 0;
    while i < |games|
      invariant 0 <= i <= |games|
      invariant groups == Grouped(games[..i])
    {
      var game := games[i];
      var baseId := BaseId(game.gameId);
      var list := Get(groups, baseId);
      list := list + [game];
      groups := Set(groups, baseId, list);
      assert games[..i + 1][..i] == games[..i];
      i := i + 1;
    }
    assert games[..i] == games;
    GroupedPartition(games);
  }

  /** `mergeWithPredefined`: one tab per predefined game, in that order, holding
      the connected instances that belong to it. */
  function MergeWithPredefined(games: seq<ConnectedGame>): (r: seq<GameGroup>)
    ensures |r| == |PredefinedGames|
    ensures forall i :: 0 <= i < |r| ==>
      var def := PredefinedGames[i];
      r[i] == GameGroup(def.baseId, def.displayName, Members(games, def.baseId), def.expectedInstances, Members(games, def.baseId) != [])
  {
    var connectedMap := Grouped(games);
    GroupedPartition(games);
    seq(|PredefinedGames|, i requires 0 <= i < |PredefinedGames| =>
      var def := PredefinedGames[i];
      var connected := Get(connectedMap, def.baseId);
      GameGroup(def.baseId, def.displayName, connected, def.expectedInstances, |connected| > 0))
  }

  /** A tab is marked connected exactly when it holds an instance. */
  lemma MergedConnectedIffInstances(games: seq<ConnectedGame>, i: nat)
    requires i < |PredefinedGames|
    ensures MergeWithPredefined(games)[i].isConnected <==> MergeWithPredefined(games)[i].instances != []
  {
  }

  /** Games whose tab is not predefined (`aria`, for one) appear in no tab. */
  lemma UnlistedGamesHidden(games: seq<ConnectedGame>, g: ConnectedGame)
    requires g in games
    requires forall i :: 0 <= i < |PredefinedGames| ==> BaseId(g.gameId) != PredefinedGames[i].baseId
    ensures forall grp :: grp in MergeWithPredefined(games) ==> g !in grp.instances
  {
  }

  // ---- Buttons and labels ----

  /** `getVariant`: the colour class of an action button. */
  function GetVariant(actionId: string): (r: string)
    ensures r == "danger" <==> actionId == "reset" || actionId == "remove_points"
    ensures r == "success" <==> actionId == "start" || actionId == "start_screen" || actionId == "add_points"
    ensures r == "warning" <==> actionId == "disable_ai" || actionId == "skip_phase"
    ensures r == "primary" <==> r != "danger" && r != "success" && r != "warning"
  {
    if actionId == "reset" then "danger"
    else if actionId == "start" || actionId == "start_screen" || actionId == "add_points" then "success"
    else if actionId == "disable_ai" || actionId == "skip_phase" then "warning"
    else if actionId == "remove_points" then "danger"
    else "primary"
  }

  /** `getRoleName`: the two labyrinth roles get French names, any other
      non-empty role is shown as is, and a game without one shows its name. */
  function GetRoleName(game: ConnectedGame): (r: string)
    ensures game.role == Some("explorer") ==> r == "Explorateur"
    ensures game.role == Some("protector") ==> r == "Protecteur"
    ensures (game.role.None? || game.role == Some("")) ==> r == game.name
    ensures game.role.Some? && game.role.value !in {"", "explorer", "protector"} ==> r == game.role.value
  {
    if game.role == Some("explorer") then "Explorateur"
    else if game.role == Some("protector") then "Protecteur"
    else if game.role.Some? && game.role.value != "" then game.role.value
    else game.name
  }

  /** `getSubGameClass`: a styling class for the two sidequest stations, `""` otherwise. */
  function GetSubGameClass(gameId: string): (r: string)
    ensures r == "" || r == SplitHead(gameId, ':')
    ensures r == "" <==> SplitHead(gameId, ':') != "sidequest-computer" && SplitHead(gameId, ':') != "sidequest-uplink"
  {
    var base := SplitHead(gameId, ':');
    if base == "sidequest-computer" then "sidequest-computer"
    else if base == "sidequest-uplink" then "sidequest-uplink"
    else ""
  }

  // ---- State tags ----

  /** One tag of an instance card (`{ label, value }`). */
  datatype StateTag = StateTag(title: string, value: string)

  predicate KnownKey(key: string)
  {
    key in ["startScreen", "isPasswordCorrect", "passwordEntered", "score", "phase", "in_progress"]
  }

  /** The tag one state entry produces, if any. */
  function TagFor(key: string, val: JValue): (r: Option<StateTag>)
    ensures r.Some? <==> KnownKey(key)
    ensures key == "phase" ==> r == Some(StateTag("Phase", ToJsString(val) + "/6"))
    ensures key == "score" ==> r == Some(StateTag("Score", ToJsString(val)))
  {
    if key == "startScreen" then Some(StateTag("Écran", if Truthy(val) then "Actif" else "Inactif"))
    else if key == "isPasswordCorrect" then Some(StateTag("Code", if Truthy(val) then "✓ Correct" else "En attente"))
    else if key == "passwordEntered" then Some(StateTag("Saisie", if Truthy(val) then ToJsString(val) else "-"))
    else if key == "score" then Some(StateTag("Score", ToJsString(val)))
    else if key == "phase" then Some(StateTag("Phase", ToJsString(val) + "/6"))
    else if key == "in_progress" then Some(StateTag("État", if Truthy(val) then "En cours" else "En attente"))
    else None
  }

  /** Different known keys give differently titled tags. */
  lemma TagTitlesDistinct(k1: string, v1: JValue, k2: string, v2: JValue)
    requires TagFor(k1, v1).Some? && TagFor(k2, v2).Some?
    requires TagFor(k1, v1).value.title == TagFor(k2, v2).value.title
    ensures k1 == k2
  {
  }

  /** Reference definition of `formatState`: the tags of the entries, in iteration order. */
  function StateTags(state: Entries): (r: seq<StateTag>)
    ensures |r| <= |state|
  {
    if state == [] then []
    else
      var (key, val) := state[|state| - 1];
      StateTags(state[..|state| - 1]) + (match TagFor(key, val) case Some(t) => [t] case None => [])
  }

  predicate EntryKeysDistinct(state: Entries)
  {
    forall i, j :: 0 <= i < j < |state| ==> state[i].0 != state[j].0
  }

  /** Every tag comes from a known key of the state. */
  lemma {:induction false} StateTagsFromKnownKeys(state: Entries)
    ensures forall t :: t in StateTags(state) ==>
      exists j :: 0 <= j < |state| && TagFor(state[j].0, state[j].1) == Some(t)
    decreases |state|
  {
    if state != [] {
      var n := |state| - 1;
      StateTagsFromKnownKeys(state[..n]);
      forall t | t in StateTags(state)
        ensures exists j :: 0 <= j < |state| && TagFor(state[j].0, state[j].1) == Some(t)
      {
        if t in StateTags(state[..n]) {
          var j :| 0 <= j < n && TagFor(state[..n][j].0, state[..n][j].1) == Some(t);
          assert state[j] == state[..n][j];
        } else {
          assert TagFor(state[n].0, state[n].1) == Some(t);
        }
      }
    }
  }

  /** A key absent from a prefix gets a title no tag of that prefix has. */
  lemma NewTitleFresh(prefix: Entries, key: string, val: JValue)
    requires forall j :: 0 <= j < |prefix| ==> prefix[j].0 != key
    requires TagFor(key, val).Some?
    ensures forall t :: t in StateTags(prefix) ==> t.title != TagFor(key, val).value.title
  {
    StateTagsFromKnownKeys(prefix);
    forall t | t in StateTags(prefix) ensures t.title != TagFor(key, val).value.title {
      var j :| 0 <= j < |prefix| && TagFor(prefix[j].0, prefix[j].1) == Some(t);
      if t.title == TagFor(key, val).value.title {
        TagTitlesDistinct(prefix[j].0, prefix[j].1, key, val);
      }
    }
  }

  /** In an object (distinct keys) no tag title appears twice: at most one tag per key. */
  lemma {:induction false} StateTagTitlesDistinct(state: Entries)
    requires EntryKeysDistinct(state)
    ensures forall i, j :: 0 <= i < j < |StateTags(state)| ==> StateTags(state)[i].title != StateTags(state)[j].title
    decreases |state|
  {
    if state != [] {
      var n := |state| - 1;
      var prefix := state[..n];
      assert EntryKeysDistinct(prefix);
      StateTagTitlesDistinct(prefix);
      var (key, val) := state[n];
      if TagFor(key, val).Some? {
        assert forall j :: 0 <= j < |prefix| ==> prefix[j].0 != key;
        NewTitleFresh(prefix, key, val);
        var prev := StateTags(prefix);
        forall i | 0 <= i < |prev| ensures prev[i].title != TagFor(key, val).value.title {
          assert prev[i] in prev;
        }
      }
    }
  }

  /** Unknown keys (`gameStarted` among them) add no tag. */
  lemma UnknownKeyIgnored(state: Entries, key: string, val: JValue)
    requires !KnownKey(key)
    ensures StateTags(state + [(key, val)]) == StateTags(state)
  {
    assert (state + [(key, val)])[..|state|] == state;
  }

  /** `formatState`. */
  method FormatState(state: Entries) returns (entries: seq<StateTag>)
    ensures entries == StateTags(state)
  {
    entries := [];
    var i := 0;
    while i < |state|
      invariant 0 <= i <= |state|
      invariant entries == StateTags(state[..i])
    {
      var (key, val) := state[i];
      assert state[..i + 1][..i] == state[..i];
      match TagFor(key, val) {
        case Some(t) => entries := entries + [t];
        case None =>
      }
      i := i + 1;
    }
    assert state[..i] == state;
  }

  // ---- Per-button status ----

  /** The key under which the status of one (game, action) button is kept. */
  function StatusKey(gameId: string, actionId: string): (r: string)
    ensures |r| == |gameId| + 1 + |actionId|
    ensures r[..|gameId|] == gameId && r[|gameId|] == ':' && r[|gameId| + 1..] == actionId
  {
    gameId + ":" + actionId
  }

  /** Action ids carry no `:`, so a status key names one (game, action) pair. */
  lemma StatusKeyInjective(g1: string, a1: string, g2: string, a2: string)
    requires ':' !in a1 && ':' !in a2
    requires StatusKey(g1, a1) == StatusKey(g2, a2)
    ensures g1 == g2 && a1 == a2
  {
    var k := StatusKey(g1, a1);
    assert k == g1 + [':'] + a1 && k == g2 + [':'] + a2;
    assert k[|g1|] == ':' && k[|g2|] == ':';
    assert |g1| == |g2| by {
      if |g1| < |g2| {
      } else if |g2| < |g1| {
      }
    }
    assert a1 == k[|k| - |a1|..] == a2;
    assert g1 == k[..|g1|] == g2;
  }

  /** `getStatus`: a button never sent is idle. */
  function GetStatus(statuses: map<string, ActionStatus>, gameId: string, actionId: string): (r: ActionStatus)
    ensures StatusKey(gameId, actionId) !in statuses ==> r == Idle
    ensures StatusKey(gameId, actionId) in statuses ==> r == statuses[StatusKey(gameId, actionId)]
  {
    var key := StatusKey(gameId, actionId);
    if key in statuses then statuses[key] else Idle
  }

  /** The statuses of one action across a tab's instances. */
  function InstanceStatuses(statuses: map<string, ActionStatus>, instances: seq<ConnectedGame>, actionId: string): (r: seq<ActionStatus>)
    ensures |r| == |instances|
    ensures forall i :: 0 <= i < |r| ==> r[i] == GetStatus(statuses, instances[i].gameId, actionId)
  {
    seq(|instances|, i requires 0 <= i < |instances| => GetStatus(statuses, instances[i].gameId, actionId))
  }

  /** The feedback a shared button shows for several instances: loading wins,
      then success when every instance succeeded, then error, else idle. */
  function FeedbackStatus(all: seq<ActionStatus>): (r: ActionStatus)
    ensures r == Loading <==> Loading in all
    ensures r == Success <==> Loading !in all && forall i :: 0 <= i < |all| ==> all[i] == Success
    ensures r == Error <==> Loading !in all && Error in all
    ensures r == Idle <==> Loading !in all && Error !in all && Idle in all
  {
    var isLoading := exists i :: 0 <= i < |all| && all[i] == Loading;
    var isSuccess := forall i :: 0 <= i < |all| ==> all[i] == Success;
    var isError := exists i :: 0 <= i < |all| && all[i] == Error;
    if isLoading then Loading
    else if isSuccess then Success
    else if isError then Error
    else Idle
  }

  /** With one instance the shared button shows that instance's own status. */
  lemma FeedbackOfOne(s: ActionStatus)
    ensures FeedbackStatus([s]) == s
  {
  }

  /** The feedback depends only on which statuses occur. */
  lemma FeedbackSameMembers(a: seq<ActionStatus>, b: seq<ActionStatus>)
    requires forall s :: s in a <==> s in b
    ensures FeedbackStatus(a) == FeedbackStatus(b)
  {
  }

  /** The feedback does not depend on instance order. */
  lemma {:induction false} FeedbackOrderFree(a: seq<ActionStatus>, b: seq<ActionStatus>)
    requires multiset(a) == multiset(b)
    ensures FeedbackStatus(a) == FeedbackStatus(b)
  {
    assert forall s :: s in a <==> s in b by {
      forall s ensures s in a <==> s in b {
        assert s in a <==> s in multiset(a);
        assert s in b <==> s in multiset(b);
      }
    }
    FeedbackSameMembers(a, b);
  }

  /** A shared button over the same instances, listed in any order or with
      repeats, shows the same feedback. */
  lemma {:induction false} SharedFeedbackOrderFree(statuses: map<string, ActionStatus>, a: seq<ConnectedGame>,
                                                   b: seq<ConnectedGame>, actionId: string)
    requires forall g :: g in a <==> g in b
    ensures FeedbackStatus(InstanceStatuses(statuses, a, actionId)) == FeedbackStatus(InstanceStatuses(statuses, b, actionId))
  {
    var sa := InstanceStatuses(statuses, a, actionId);
    var sb := InstanceStatuses(statuses, b, actionId);
    forall s | s in sa ensures s in sb {
      var i :| 0 <= i < |sa| && sa[i] == s;
      assert a[i] in a;
      var j :| 0 <= j < |b| && b[j] == a[i];
      assert sb[j] == s;
    }
    forall s | s in sb ensures s in sa {
      var j :| 0 <= j < |sb| && sb[j] == s;
      assert b[j] in b;
      var i :| 0 <= i < |a| && a[i] == b[j];
      assert sa[i] == s;
    }
    FeedbackSameMembers(sa, sb);
  }

  // ---- The `set_code` guard ----

  /** `games.find(g => g.gameId === id)`. */
  function FindGame(games: seq<ConnectedGame>, gameId: string): (r: Option<ConnectedGame>)
    ensures r.None? <==> forall i :: 0 <= i < |games| ==> games[i].gameId != gameId
    ensures r.Some? ==> exists i :: 0 <= i < |games| && games[i] == r.value && r.value.gameId == gameId &&
                          forall j :: 0 <= j < i ==> games[j].gameId != gameId
  {
    if games == [] then None
    else if games[0].gameId == gameId then Some(games[0])
    else FindGame(games[1..], gameId)
  }

  /** Entering the code is refused once the first `sidequest-computer`
      instance reports its password as correct (the boolean `true`, strictly). */
  function SetCodeBlocked(games: seq<ConnectedGame>): (r: bool)
    ensures r <==> exists i :: 0 <= i < |games| && games[i].gameId == "sidequest-computer" &&
                    (forall j :: 0 <= j < i ==> games[j].gameId != "sidequest-computer") &&
                    Lookup(games[i].state, "isPasswordCorrect") == Some(JBool(true))
  {
    match FindGame(games, "sidequest-computer")
    case Some(g) => Lookup(g.state, "isPasswordCorrect") == Some(JBool(true))
    case None => false
  }

  /** Only the boolean `true` blocks: a truthy string or number does not. */
  lemma SetCodeGuardIsStrict(g: ConnectedGame)
    requires g.gameId == "sidequest-computer"
    requires Lookup(g.state, "isPasswordCorrect") in {Some(JString("true")), Some(JNumber(1))}
    ensures !SetCodeBlocked([g])
  {
  }

  /** A later instance reporting success does not block when the first does not. */
  lemma SetCodeOnlyFirstInstance(g1: ConnectedGame, g2: ConnectedGame)
    requires g1.gameId == "sidequest-computer" && Lookup(g1.state, "isPasswordCorrect") == Some(JBool(false))
    ensures !SetCodeBlocked([g1, g2])
  {
  }

  // ---- The dashboard's own state ----

  datatype ConfirmDialogState = ConfirmDialogState(
    isOpen: bool,
    action: Option<GameAction>,
    instances: seq<ConnectedGame>,
    params: Payload)

  const ClosedDialog := ConfirmDialogState(false, None, [], map[])

  /** One `POST /api/games/:gameId/command` with body `{ action, payload }`. */
  datatype CommandRequest = CommandRequest(gameId: string, actionId: string, payload: Payload)

  /** How a click on an action button ended. */
  datatype ClickOutcome = PromptCancelled | CodeRefused | ConfirmationRequested | Dispatched

  /** The requests `sendToAll` issues: one per instance, in instance order. */
  function RequestsFor(instances: seq<ConnectedGame>, actionId: string, payload: Payload): (r: seq<CommandRequest>)
    ensures |r| == |instances|
    ensures forall i :: 0 <= i < |r| ==> r[i] == CommandRequest(instances[i].gameId, actionId, payload)
  {
    seq(|instances|, i requires 0 <= i < |instances| => CommandRequest(instances[i].gameId, actionId, payload))
  }

  function KeysFor(instances: seq<ConnectedGame>, actionId: string): set<string>
  {
    set i | 0 <= i < |instances| :: StatusKey(instances[i].gameId, actionId)
  }

  /** The statuses once every instance's button has been marked loading. */
  function MarkedLoading(statuses: map<string, ActionStatus>, instances: seq<ConnectedGame>, actionId: string): (r: map<string, ActionStatus>)
    ensures forall i :: 0 <= i < |instances| ==>
      StatusKey(instances[i].gameId, actionId) in r && r[StatusKey(instances[i].gameId, actionId)] == Loading
    ensures forall k :: k in statuses && k !in KeysFor(instances, actionId) ==> k in r && r[k] == statuses[k]
    ensures r.Keys == statuses.Keys + KeysFor(instances, actionId)
  {
    statuses + map k | k in KeysFor(instances, actionId) :: Loading
  }

  /** Marking one more instance loading adds its key, as `sendCommand` does. */
  lemma MarkedLoadingStep(statuses: map<string, ActionStatus>, instances: seq<ConnectedGame>, i: nat, actionId: string)
    requires i < |instances|
    ensures MarkedLoading(statuses, instances[..i + 1], actionId) ==
      MarkedLoading(statuses, instances[..i], actionId)[StatusKey(instances[i].gameId, actionId) := Loading]
  {
    assert KeysFor(instances[..i + 1], actionId) == KeysFor(instances[..i], actionId) + {StatusKey(instances[i].gameId, actionId)} by {
      assert forall j :: 0 <= j < i ==> instances[..i + 1][j] == instances[..i][j];
      assert instances[..i + 1][i] == instances[i];
    }
  }

  lemma RequestsForStep(instances: seq<ConnectedGame>, i: nat, actionId: string, payload: Payload)
    requires i < |instances|
    ensures RequestsFor(instances[..i + 1], actionId, payload) ==
      RequestsFor(instances[..i], actionId, payload) + [CommandRequest(instances[i].gameId, actionId, payload)]
  {
  }

  class Dashboard {
    var games: seq<ConnectedGame>
    var statuses: map<string, ActionStatus>
    var confirmDialog: ConfirmDialogState
    /** Every command request sent to the hub, in order. */
    var requests: seq<CommandRequest>

    constructor ()
      ensures games == [] && statuses == map[] && confirmDialog == ClosedDialog && requests == []
    {
      games := [];
      statuses := map[];
      confirmDialog := ClosedDialog;
      requests := [];
    }

    /** A `games_updated` broadcast, or the answer of `GET /api/games`. */
    method OnGamesUpdated(data: seq<ConnectedGame>)
      modifies this
      ensures games == data
      ensures statuses == old(statuses) && confirmDialog == old(confirmDialog) && requests == old(requests)
    {
      games := data;
    }

    /** `sendCommand`, up to its `fetch`: the button turns loading and the request leaves. */
    method SendCommand(gameId: string, actionId: string, payload: Payload)
      modifies this
      ensures statuses == old(statuses)[StatusKey(gameId, actionId) := Loading]
      ensures requests == old(requests) + [CommandRequest(gameId, actionId, payload)]
      ensures games == old(games) && confirmDialog == old(confirmDialog)
    {
      statuses := statuses[StatusKey(gameId, actionId) := Loading];
      requests := requests + [CommandRequest(gameId, actionId, payload)];
    }

    /** The answer to a command request: success for a 2xx status, error for
        anything else or a network failure. Returns the delay (ms) after which
        the button goes back to idle. */
    method OnCommandSettled(gameId: string, actionId: string, responseOk: bool) returns (idleAfterMs: nat)
      modifies this
      ensures statuses == old(statuses)[StatusKey(gameId, actionId) := if responseOk then Success else Error]
      ensures idleAfterMs == if responseOk then 1500 else 2500
      ensures games == old(games) && confirmDialog == old(confirmDialog) && requests == old(requests)
    {
      if responseOk {
        statuses := statuses[StatusKey(gameId, actionId) := Success];
        idleAfterMs := 1500;
      } else {
        statuses := statuses[StatusKey(gameId, actionId) := Error];
        idleAfterMs := 2500;
      }
    }

    /** The reset timer of a settled command fires. */
    method OnStatusTimeout(gameId: string, actionId: string)
      modifies this
      ensures statuses == old(statuses)[StatusKey(gameId, actionId) := Idle]
      ensures games == old(games) && confirmDialog == old(confirmDialog) && requests == old(requests)
    {
      statuses := statuses[StatusKey(gameId, actionId) := Idle];
    }

    /** `sendToAll`: one command per instance, all issued before any answer arrives. */
    method SendToAll(instances: seq<ConnectedGame>, action: GameAction, payload: Payload)
      modifies this
      ensures requests == old(requests) + RequestsFor(instances, action.id, payload)
      ensures statuses == MarkedLoading(old(statuses), instances, action.id)
      ensures games == old(games) && confirmDialog == old(confirmDialog)
    {
      var i := 0;
      while i < |instances|
        invariant 0 <= i <= |instances|
        invariant requests == old(requests) + RequestsFor(instances[..i], action.id, payload)
        invariant statuses == MarkedLoading(old(statuses), instances[..i], action.id)
        invariant games == old(games) && confirmDialog == old(confirmDialog)
      {
        MarkedLoadingStep(old(statuses), instances, i, action.id);
        RequestsForStep(instances, i, action.id, payload);
        SendCommand(instances[i].gameId, action.id, payload);
        i := i + 1;
      }
      assert instances[..i] == instances;
    }

    /** `handleActionClick`: collect the parameters, then either refuse or ask
        to confirm `set_code`, or send the command to every instance. */
    method HandleActionClick(instances: seq<ConnectedGame>, action: GameAction, reply: Replies) returns (outcome: ClickOutcome)
      modifies this
      ensures games == old(games)
      ensures var prompted := PromptedPayload(ParamsOf(action), reply);
        && (outcome == PromptCancelled <==> prompted.None?)
        && (outcome == CodeRefused <==> prompted.Some? && action.id == "set_code" && SetCodeBlocked(games))
        && (outcome == ConfirmationRequested <==> prompted.Some? && action.id == "set_code" && !SetCodeBlocked(games))
        && (outcome == Dispatched <==> prompted.Some? && action.id != "set_code")
        && (outcome == ConfirmationRequested ==> confirmDialog == ConfirmDialogState(true, Some(action), instances, prompted.value))
        && (outcome != ConfirmationRequested ==> confirmDialog == old(confirmDialog))
        && (outcome == Dispatched ==>
              requests == old(requests) + RequestsFor(instances, action.id, prompted.value) &&
              statuses == MarkedLoading(old(statuses), instances, action.id))
        && (outcome != Dispatched ==> requests == old(requests) && statuses == old(statuses))
    {
      var payload: Payload := map[];
      if action.params.Some? && |action.params.value| > 0 {
        var collected, _ := CollectParams(action.params.value, reply);
        if collected.None? {
          return PromptCancelled;
        }
        payload := collected.value;
      }
      if action.id == "set_code" {
        if SetCodeBlocked(games) {
          return CodeRefused;
        }
        confirmDialog := ConfirmDialogState(true, Some(action), instances, payload);
        return ConfirmationRequested;
      }
      SendToAll(instances, action, payload);
      return Dispatched;
    }

    /** The confirmation dialog's "Confirmer": send what was confirmed, then close. */
    method HandleConfirmAction()
      modifies this
      ensures confirmDialog == ClosedDialog && games == old(games)
      ensures var d := old(confirmDialog);
        if d.action.Some? && d.instances != [] then
          requests == old(requests) + RequestsFor(d.instances, d.action.value.id, d.params) &&
          statuses == MarkedLoading(old(statuses), d.instances, d.action.value.id)
        else
          requests == old(requests) && statuses == old(statuses)
    {
      if confirmDialog.action.Some? && |confirmDialog.instances| > 0 {
        SendToAll(confirmDialog.instances, confirmDialog.action.value, confirmDialog.params);
      }
      confirmDialog := ClosedDialog;
    }

    /** The confirmation dialog's "Annuler": close without sending. */
    method HandleCancelAction()
      modifies this
      ensures confirmDialog == ClosedDialog
      ensures games == old(games) && statuses == old(statuses) && requests == old(requests)
    {
      confirmDialog := ClosedDialog;
    }
  }
}
