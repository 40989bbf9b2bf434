/** The FightClub contract (main.go): the storage it keeps, and one method per
    contract function that reads or writes it. Every method that can panic
    returns its error instead, and on every error path nothing is written,
    as a NEO transaction that panics rolls back all its writes. */
module FightClub {
  import opened Types
  import opened Chance
  import opened Decimal
  import opened Lists

  // -----------------------------------------------------------------------
  // Record-level rules: a Player is a Go struct copied by value, so the
  // updates DistributePoints and distributeWinnings make to their local
  // copies are functions of the copy.

  /** The record `NewPlayer` stores for a fresh name. */
  function StartingRecord(name: string): (p: Player)
    ensures p.name == name && p.balance == STARTING_BALANCE && p.items == []
    ensures p.speed == 0 && p.stamina == 0 && p.strength == 0 && p.points == STARTING_POINTS
    ensures Total(p) == STARTING_POINTS
  {
    Player(name, 0, 0, 0, STARTING_BALANCE, [], STARTING_POINTS)
  }

  /** Attribute points held, allocated or not. */
  function Total(p: Player): int {
    p.speed + p.stamina + p.strength + p.points
  }

  /** The record after `DistributePoints` moves points into attributes. */
  function Allocate(p: Player, pointsSpeed: int, pointsStamina: int, pointsStrength: int): (q: Player)
    ensures Total(q) == Total(p)
    ensures q.points == p.points - (pointsSpeed + pointsStamina + pointsStrength)
    ensures q.speed - p.speed == pointsSpeed
    ensures q.stamina - p.stamina == pointsStamina
    ensures q.strength - p.strength == pointsStrength
    ensures q.name == p.name && q.balance == p.balance && q.items == p.items
  {
    p.(speed := p.speed + pointsSpeed,
       stamina := p.stamina + pointsStamina,
       strength := p.strength + pointsStrength,
       points := p.points - (pointsSpeed + pointsStamina + pointsStrength))
  }

  /** The stored records after `distributeWinnings(winner, player1, player2,
      bet)`: the winner's record is rewritten with the bet added, then the
      records of both fighters are deleted, whoever the winner is. */
  function SettlePlayers(players: map<string, Player>, winner: string, player1: string,
                         player2: string, bet: int): (m: map<string, Player>)
    requires winner in players
    ensures player1 !in m && player2 !in m
    ensures forall k :: k in m <==> k in players && k != player1 && k != player2
    ensures winner != player1 && winner != player2 ==>
              m[winner] == players[winner].(balance := players[winner].balance + bet)
    ensures forall k :: k in m && k != winner ==> m[k] == players[k]
  {
    var credited := players[winner].(balance := players[winner].balance + bet);
    players[winner := credited] - {player1} - {player2}
  }

  /** No stored balance is negative. The contract does not enforce this; the
      lemmas and postconditions below say which operations keep it. */
  predicate Solvent(players: map<string, Player>) {
    forall k :: k in players ==> players[k].balance >= 0
  }

  /** Settlement keeps balances non-negative for a non-negative bet. */
  lemma SettleKeepsSolvent(players: map<string, Player>, winner: string, player1: string,
                           player2: string, bet: int)
    requires winner in players && Solvent(players) && bet >= 0
    ensures Solvent(SettlePlayers(players, winner, player1, player2, bet))
  {
  }

  /** A negative bet passes every check of `battle` and is added to the
      winner's balance, so it can push that balance below zero: here both
      fighters have records with zero balances that cover a bet of -5, and
      the record under the label "player1" ends at -5. */
  lemma NegativeBetOverdraws()
    ensures var players := map[PLAYER1 := Player(PLAYER1, 0, 0, 0, 0, [], 0),
                               "a" := Player("a", 0, 0, 0, 0, [], 0),
                               "b" := Player("b", 0, 0, 0, 0, [], 0)];
            && Solvent(players)
            && Fighters(players, "a", "b") && Covered(players, "a", "b", -5)
            && !Solvent(SettlePlayers(players, PLAYER1, "a", "b", -5))
            && SettlePlayers(players, PLAYER1, "a", "b", -5)[PLAYER1].balance == -5
  {
  }

  /** The JSONPath `BuyItem` sends to the oracle for an item. */
  const FILTER_PREFIX: string := "$.store.item["
  const FILTER_SUFFIX: string := "]"

  function ItemFilter(itemId: int): (f: string)
    ensures |f| == |FILTER_PREFIX| + |Itoa10(itemId)| + |FILTER_SUFFIX|
    ensures f[..|FILTER_PREFIX|] == FILTER_PREFIX && f[|f| - 1] == ']'
    ensures f[|FILTER_PREFIX|..|f| - 1] == Itoa10(itemId)
  {
    FILTER_PREFIX + Itoa10(itemId) + FILTER_SUFFIX
  }

  /** The filter addresses exactly the requested item: the index between the
      brackets reads back as the item id, so different ids give different
      filters. */
  lemma ItemFilterAddressesItem(itemId: int, otherId: int)
    ensures var f := ItemFilter(itemId);
            |f| > |FILTER_PREFIX| + |FILTER_SUFFIX| &&
            f[..|FILTER_PREFIX|] == FILTER_PREFIX &&
            IsDecimal(f[|FILTER_PREFIX|..|f| - 1]) &&
            Atoi10(f[|FILTER_PREFIX|..|f| - 1]) == itemId
    ensures ItemFilter(itemId) == ItemFilter(otherId) ==> itemId == otherId
  {
    var f := ItemFilter(itemId);
    assert f[|FILTER_PREFIX|..|f| - 1] == Itoa10(itemId);
    Itoa10RoundTrip(itemId);
    var g := ItemFilter(otherId);
    assert g[|FILTER_PREFIX|..|g| - 1] == Itoa10(otherId);
    if f == g {
      Itoa10Injective(itemId, otherId);
    }
  }

  /** What the oracle's callback carries after its outer brackets are cut off. */
  datatype Offer = Offer(price: int, id: int)

  /** `battle`'s checks before it computes the odds: the opponent's record
      exists and carries a name, and the player's record exists. */
  predicate Fighters(players: map<string, Player>, playerName: string, opponentName: string) {
    opponentName in players && players[opponentName].name != "" && playerName in players
  }

  /** `battle`'s balance check. */
  predicate Covered(players: map<string, Player>, playerName: string, opponentName: string, bet: int)
    requires Fighters(players, playerName, opponentName)
  {
    players[playerName].balance >= bet && players[opponentName].balance >= bet
  }

  /** `battle` runs to the end: both records pass its checks, and a record
      is stored under the label its draw picks, so `distributeWinnings`
      finds all three records it reads. */
  predicate BattleSettles(players: map<string, Player>, playerName: string, opponentName: string,
                          bet: int, draw: nat) {
    && Fighters(players, playerName, opponentName)
    && Covered(players, playerName, opponentName, bet)
    && ChooseWinner(WinChance(players[playerName], players[opponentName]), draw) in players
  }

  /** Draw k is where the re-roll of `createRandomOpponent` stops: it picks
      an entry other than the caller's, and every earlier draw picked the
      caller's. At most one k has this property. */
  ghost predicate FirstOtherDraw(roster: seq<string>, playerName: string, draws: seq<nat>, k: int) {
    && |roster| >= 2
    && 0 <= k < |draws|
    && roster[Random(draws[k], |roster|)] != playerName
    && forall j :: 0 <= j < k ==> roster[Random(draws[j], |roster|)] == playerName
  }

  /** The re-roll stopped at a non-empty entry, and no record is left under
      that entry. */
  ghost predicate DrawnOpponentGone(roster: seq<string>, playerName: string, draws: seq<nat>,
                                    players: map<string, Player>) {
    exists k :: FirstOtherDraw(roster, playerName, draws, k)
                && roster[Random(draws[k], |roster|)] != ""
                && roster[Random(draws[k], |roster|)] !in players
  }

  /** The re-roll stopped at the empty name, which `findRandomMatch` scores
      as a draw. */
  ghost predicate DrawnEmpty(roster: seq<string>, playerName: string, draws: seq<nat>) {
    exists k :: FirstOtherDraw(roster, playerName, draws, k)
                && roster[Random(draws[k], |roster|)] == ""
  }

  /** The re-roll stopped at an entry that, like the caller, has a record, and
      `outcome` is the label the battle between the two records draws. */
  ghost predicate RandomBattleOutcome(roster: seq<string>, playerName: string, draws: seq<nat>,
                                      players: map<string, Player>, battleDraw: nat, outcome: string) {
    exists k :: FirstOtherDraw(roster, playerName, draws, k)
                && var opponent := roster[Random(draws[k], |roster|)];
                   && opponent in players && playerName in players
                   && outcome == ChooseWinner(WinChance(players[playerName], players[opponent]), battleDraw)
  }

  /** The draw where the re-roll stops is unique. */
  lemma FirstOtherDrawUnique(roster: seq<string>, playerName: string, draws: seq<nat>, k: int, l: int)
    requires FirstOtherDraw(roster, playerName, draws, k)
    requires FirstOtherDraw(roster, playerName, draws, l)
    ensures k == l
  {
  }

  // -----------------------------------------------------------------------

  /** The contract's storage: the records under player names, the list under
      `playersListKey` (an absent list reads as empty, and no operation ever
      stores an empty one) and the catalog URL under `storeURLKey`. */
  class Contract {
    var players: map<string, Player>
    var roster: seq<string>
    var storeUrl: string

    /** Records live under their own name, and no record sits under one of
        the two fixed keys. */
    ghost predicate Valid()
      reads this
    {
      && STORE_URL_KEY !in players
      && PLAYERS_LIST_KEY !in players
      && forall k :: k in players ==> players[k].name == k
    }

    /** The state `_deploy` leaves: only the catalog URL is stored. */
    constructor (storeUrl: string)
      ensures Valid()
      ensures players == map[] && roster == [] && this.storeUrl == storeUrl
    {
      players := map[];
      roster := [];
      this.storeUrl := storeUrl;
    }

    // ---- registration and lookups --------------------------------------

    /** `NewPlayer`: a name whose storage key is taken is refused; otherwise
        the starting record is stored and the name appended to the list. */
    method NewPlayer(playerName: string) returns (r: Outcome)
      modifies this
      ensures old(Valid()) ==> Valid()
      ensures old(Solvent(players)) ==> Solvent(players)
      ensures storeUrl == old(storeUrl)
      ensures r.Fail? <==> playerName in old(players) || playerName == STORE_URL_KEY
                           || playerName == PLAYERS_LIST_KEY
      ensures r.Fail? ==> r.error == AlreadyExists && players == old(players) && roster == old(roster)
      ensures r.Pass? ==>
                players == old(players)[playerName := StartingRecord(playerName)]
                && roster == old(roster) + [playerName]
    {
      if playerName in players || playerName == STORE_URL_KEY || playerName == PLAYERS_LIST_KEY {
        return Fail(AlreadyExists);
      }
      players := players[playerName := StartingRecord(playerName)];
      UpdatePlayersList(playerName);
      return Pass;
    }

    /** `UpdatePlayersList`: appends unconditionally, duplicates included. */
    method UpdatePlayersList(playerName: string)
      modifies this
      ensures roster == old(roster) + [playerName]
      ensures players == old(players) && storeUrl == old(storeUrl)
    {
      var playersList := roster;
      playersList := playersList + [playerName];
      roster := playersList;
    }

    /** `getPlayer`. */
    function GetPlayer(playerName: string): (r: Result<Player>)
      reads this
      ensures r.Ok? <==> playerName in players
      ensures r.Err? ==> r.error == NotFound
      ensures r.Ok? ==> r.value == players[playerName]
      ensures Valid() && r.Ok? ==> r.value.name == playerName
    {
      if playerName in players then Ok(players[playerName]) else Err(NotFound)
    }

    /** `Balance`. */
    function Balance(playerName: string): (r: Result<int>)
      reads this
      ensures r.Ok? <==> playerName in players
      ensures r.Err? ==> r.error == NotFound
      ensures r.Ok? ==> r.value == players[playerName].balance
    {
      match GetPlayer(playerName)
      case Ok(p) => Ok(p.balance)
      case Err(e) => Err(e)
    }

    /** `Items`. */
    function Items(playerName: string): (r: Result<seq<int>>)
      reads this
      ensures r.Ok? <==> playerName in players
      ensures r.Err? ==> r.error == NotFound
      ensures r.Ok? ==> r.value == players[playerName].items
    {
      match GetPlayer(playerName)
      case Ok(p) => Ok(p.items)
      case Err(e) => Err(e)
    }

    /** `getAllPlayers`: the stored list, empty when none is stored. */
    function AllPlayers(): (r: seq<string>)
      reads this
      ensures r == roster
    {
      roster
    }

    // ---- points ----------------------------------------------------------

    /** `DistributePoints`: refuses an allocation whose sum exceeds the
        unallocated points (negative increments are not refused). */
    method DistributePoints(playerName: string, pointsSpeed: int, pointsStamina: int,
                            pointsStrength: int) returns (r: Outcome)
      modifies this
      ensures old(Valid()) ==> Valid()
      ensures old(Solvent(players)) ==> Solvent(players)
      ensures roster == old(roster) && storeUrl == old(storeUrl)
      ensures playerName !in old(players) ==> r == Fail(NotFound)
      ensures playerName in old(players) ==>
                (r.Fail? <==> pointsSpeed + pointsStamina + pointsStrength > old(players)[playerName].points)
      ensures playerName in old(players) && r.Fail? ==> r.error == NotEnoughPoints
      ensures r.Fail? ==> players == old(players)
      ensures r.Pass? ==>
                playerName in old(players)
                && players == old(players)[playerName := Allocate(old(players)[playerName],
                                                                  pointsSpeed, pointsStamina, pointsStrength)]
    {
      var got := GetPlayer(playerName);
      if got.Err? {
        return Fail(got.error);
      }
      var player := got.value;
      if pointsSpeed + pointsStamina + pointsStrength > player.points {
        return Fail(NotEnoughPoints);
      }
      player := Allocate(player, pointsSpeed, pointsStamina, pointsStrength);
      players := players[playerName := player];
      return Pass;
    }

    // ---- purchase --------------------------------------------------------

    /** `BuyItem`: refuses an item the player already owns; otherwise writes
        nothing and returns the one oracle request it would send. */
    method BuyItem(playerName: string, itemId: int) returns (r: Result<OracleRequest>)
      ensures playerName !in players ==> r == Err(NotFound)
      ensures playerName in players ==> (r.Err? <==> Contains(players[playerName].items, itemId))
      ensures playerName in players && r.Err? ==> r.error == AlreadyPurchased
      ensures r.Ok? ==> r.value == OracleRequest(storeUrl, ItemFilter(itemId), CALLBACK_NAME,
                                                 playerName, 2 * MINIMUM_RESPONSE_GAS)
    {
      var got := GetPlayer(playerName);
      if got.Err? {
        return Err(got.error);
      }
      var items := got.value.items;
      // The source scans the items once by hand and once through `contains`;
      // both refuse the same inputs, so one scan stands for both.
      var i := 0;
      while i < |items|
        invariant 0 <= i <= |items|
        invariant forall j :: 0 <= j < i ==> items[j] != itemId
      {
        if items[i] == itemId {
          return Err(AlreadyPurchased);
        }
        i := i + 1;
      }
      var filter := ItemFilter(itemId);
      return Ok(OracleRequest(storeUrl, filter, CALLBACK_NAME, playerName, 2 * MINIMUM_RESPONSE_GAS));
    }

    /** `CbBuyItem`: the oracle's callback. `decode` is the JSON decoder
        applied to the payload without its first and last byte; it yields
        the offer's `price` and `id`, or nothing when they cannot be read. */
    method CbBuyItem(caller: Hash160, url: string, userData: string, code: int,
                     result: seq<bv8>, decode: seq<bv8> -> Option<Offer>) returns (r: Outcome)
      modifies this
      ensures old(Valid()) ==> Valid()
      ensures old(Solvent(players)) ==> Solvent(players)
      ensures roster == old(roster) && storeUrl == old(storeUrl)
      ensures caller != ORACLE_HASH ==> r == Fail(Unauthorized)
      ensures caller == ORACLE_HASH && code != ORACLE_SUCCESS ==> r == Fail(RequestFailed)
      ensures caller == ORACLE_HASH && code == ORACLE_SUCCESS && |result| < 2 ==> r == Fail(MalformedPayload)
      ensures caller == ORACLE_HASH && code == ORACLE_SUCCESS && |result| >= 2 ==>
                var offer := decode(result[1..|result| - 1]);
                && (offer.None? ==> r == Fail(MalformedPayload))
                && (offer.Some? && userData !in old(players) ==> r == Fail(NotFound))
                && (offer.Some? && userData in old(players) ==>
                      (r.Fail? <==> old(players)[userData].balance < offer.value.price))
                && (r.Pass? ==>
                      && offer.Some? && userData in old(players)
                      && var p := old(players)[userData];
                         players == old(players)[userData := p.(balance := p.balance - offer.value.price,
                                                                items := p.items + [offer.value.id])])
      ensures r.Fail? ==> players == old(players)
      ensures r.Fail? && caller == ORACLE_HASH && code == ORACLE_SUCCESS && |result| >= 2
              && decode(result[1..|result| - 1]).Some? && userData in old(players)
              ==> r.error == InsufficientBalance
    {
      if caller != ORACLE_HASH {
        return Fail(Unauthorized);
      }
      if code != ORACLE_SUCCESS {
        return Fail(RequestFailed);
      }
      if |result| < 2 {
        return Fail(MalformedPayload);
      }
      var data := decode(result[1..|result| - 1]);
      if data.None? {
        return Fail(MalformedPayload);
      }
      var price := data.value.price;
      var gearId := data.value.id;
      var got := GetPlayer(userData);
      if got.Err? {
        return Fail(got.error);
      }
      var player := got.value;
      if player.balance < price {
        return Fail(InsufficientBalance);
      }
      player := player.(balance := player.balance - price);
      player := player.(items := player.items + [gearId]);
      players := players[userData := player];
      return Pass;
    }

    // ---- battle ----------------------------------------------------------

    /** `distributeWinnings`: needs all three records; credits the winner,
        stores it, deletes both fighters and appends the winner to the list.
        The loser's debit is made on a local copy that is never stored. */
    method DistributeWinnings(winner: string, player1: string, player2: string, bet: int)
      returns (r: Outcome)
      modifies this
      ensures old(Valid()) ==> Valid()
      ensures bet >= 0 && old(Solvent(players)) ==> Solvent(players)
      ensures storeUrl == old(storeUrl)
      ensures r.Fail? <==> winner !in old(players) || player1 !in old(players) || player2 !in old(players)
      ensures r.Fail? ==> r.error == NotFound && players == old(players) && roster == old(roster)
      ensures r.Pass? ==>
                players == SettlePlayers(old(players), winner, player1, player2, bet)
                && roster == old(roster) + [winner]
    {
      var got := GetPlayer(winner);
      if got.Err? {
        return Fail(got.error);
      }
      var winnerData := got.value;
      got := GetPlayer(player1);
      if got.Err? {
        return Fail(got.error);
      }
      var player1Data := got.value;
      got := GetPlayer(player2);
      if got.Err? {
        return Fail(got.error);
      }
      var player2Data := got.value;

      winnerData := winnerData.(balance := winnerData.balance + bet);
      if winner == player1 {
        player2Data := player2Data.(balance := player2Data.balance - bet);
      } else {
        player1Data := player1Data.(balance := player1Data.balance - bet);
      }

      ghost var before := old(players);
      players := players[winner := winnerData];
      players := players - {player1};
      players := players - {player2};
      assert players == SettlePlayers(before, winner, player1, player2, bet);
      if bet >= 0 && Solvent(before) {
        SettleKeepsSolvent(before, winner, player1, player2, bet);
      }
      UpdatePlayersList(winner);
      return Pass;
    }

    /** `battle`: checks both records and both balances, draws the outcome,
        and hands the outcome's label ("player1" or "player2") to
        settlement as the winner's name. Settlement then succeeds only if a
        player registered under that label exists. */
    method Battle(playerName: string, opponentName: string, bet: int, draw: nat)
      returns (r: Result<string>)
      modifies this
      ensures old(Valid()) ==> Valid()
      ensures bet >= 0 && old(Solvent(players)) ==> Solvent(players)
      ensures storeUrl == old(storeUrl)
      ensures r.Err? ==> players == old(players) && roster == old(roster)
      ensures opponentName !in old(players) ==> r == Err(NotFound)
      ensures opponentName in old(players) && old(players)[opponentName].name == ""
              ==> r == Err(OpponentNotFound)
      ensures (opponentName in old(players) && old(players)[opponentName].name != ""
               && playerName !in old(players)) ==> r == Err(NotFound)
      ensures (Fighters(old(players), playerName, opponentName)
               && !Covered(old(players), playerName, opponentName, bet)) ==> r == Err(InsufficientStake)
      ensures Fighters(old(players), playerName, opponentName)
              && Covered(old(players), playerName, opponentName, bet) ==>
                var chance := WinChance(old(players)[playerName], old(players)[opponentName]);
                var outcome := ChooseWinner(chance, draw);
                && (r.Ok? <==> outcome in old(players))
                && (r.Err? ==> r.error == NotFound)
                && (r.Ok? ==> r.value == outcome
                              && players == SettlePlayers(old(players), outcome, playerName, opponentName, bet)
                              && roster == old(roster) + [outcome])
      ensures r.Ok? ==> (r.value == PLAYER1 || r.value == PLAYER2)
                        && playerName !in players && opponentName !in players
      ensures r.Ok? <==> BattleSettles(old(players), playerName, opponentName, bet, draw)
    {
      var got := GetPlayer(opponentName);
      if got.Err? {
        return Err(got.error);
      }
      if got.value.name == "" {
        return Err(OpponentNotFound);
      }
      got := GetPlayer(playerName);
      if got.Err? {
        return Err(got.error);
      }
      var player := got.value;
      var opponent := players[opponentName];
      if player.balance < bet || opponent.balance < bet {
        return Err(InsufficientStake);
      }
      var chancePlayer := WinChance(player, opponent);
      var winner := ChooseWinner(chancePlayer, draw);
      var settled := DistributeWinnings(winner, playerName, opponentName, bet);
      if settled.Fail? {
        return Err(settled.error);
      }
      return Ok(winner);
    }

    // ---- matchmaking -----------------------------------------------------

    /** `getRealOpponent`: filters the caller's name out of the list and picks
        one of the rest by the draw. */
    method GetRealOpponent(playerName: string, draw: nat) returns (r: Result<string>)
      ensures |roster| == 0 ==> r == Err(NoPlayers)
      ensures |roster| == 1 ==> r == Err(NotEnoughPlayers)
      ensures |roster| >= 2 ==> (r.Err? <==> forall i :: 0 <= i < |roster| ==> roster[i] == playerName)
      ensures |roster| >= 2 && r.Err? ==> r.error == NoOpponents
      ensures r.Ok? ==> r.value in roster && r.value != playerName
      ensures r.Ok? ==> var others := Others(roster, playerName);
                        |others| > 0 && r.value == others[Random(draw, |others|)]
    {
      if |roster| == 0 {
        return Err(NoPlayers);
      }
      var playersList := roster;
      if |playersList| < 2 {
        return Err(NotEnoughPlayers);
      }
      var opponents: seq<string> := [];
      var i := 0;
      while i < |playersList|
        invariant 0 <= i <= |playersList|
        invariant opponents == Others(playersList[..i], playerName)
      {
        OthersSnoc(playersList, i, playerName);
        if playersList[i] != playerName {
          opponents := opponents + [playersList[i]];
        }
        i := i + 1;
      }
      assert playersList[..i] == playersList;
      if |opponents| == 0 {
        return Err(NoOpponents);
      }
      return Ok(opponents[Random(draw, |opponents|)]);
    }

    /** `createRandomOpponent`: with fewer than two names returns ""; otherwise
        draws names from the whole list until one is not the caller's. The
        source loops for as long as it takes; here the draws are a finite
        sequence, and running out of them is `RetriesExhausted`. */
    method CreateRandomOpponent(playerName: string, draws: seq<nat>) returns (r: Result<string>)
      ensures |roster| < 2 ==> r == Ok("")
      ensures |roster| >= 2 && r.Ok? ==> r.value in roster && r.value != playerName
      ensures |roster| >= 2 && r.Ok? ==>
                exists k :: 0 <= k < |draws| && roster[Random(draws[k], |roster|)] == r.value
                            && forall j :: 0 <= j < k ==> roster[Random(draws[j], |roster|)] == playerName
      ensures |roster| >= 2 && r.Err? ==>
                r.error == RetriesExhausted
                && forall j :: 0 <= j < |draws| ==> roster[Random(draws[j], |roster|)] == playerName
    {
      var opponents := AllPlayers();
      if |opponents| < 2 {
        return Ok("");
      }
      var k := 0;
      while k < |draws|
        invariant 0 <= k <= |draws|
        invariant forall j :: 0 <= j < k ==> opponents[Random(draws[j], |opponents|)] == playerName
      {
        var randomOpponentName := opponents[Random(draws[k], |opponents|)];
        if randomOpponentName != playerName {
          return Ok(randomOpponentName);
        }
        k := k + 1;
      }
      return Err(RetriesExhausted);
    }

    /** `findRandomMatch`: no random opponent (or the empty name) is a draw,
        with nothing written; otherwise the battle against it. */
    method FindRandomMatch(playerName: string, bet: int, draws: seq<nat>, battleDraw: nat)
      returns (r: Result<string>)
      modifies this
      ensures old(Valid()) ==> Valid()
      ensures bet >= 0 && old(Solvent(players)) ==> Solvent(players)
      ensures storeUrl == old(storeUrl)
      ensures r.Err? ==> players == old(players) && roster == old(roster)
      ensures |old(roster)| >= 2
              && (forall j :: 0 <= j < |draws| ==> old(roster)[Random(draws[j], |old(roster)|)] == playerName)
              ==> r == Err(RetriesExhausted)
      ensures r == Ok(DRAW) <==> |old(roster)| < 2 || DrawnEmpty(old(roster), playerName, draws)
      ensures r == Ok(DRAW) ==> players == old(players) && roster == old(roster)
      ensures r.Ok? && r.value != DRAW ==>
                (r.value == PLAYER1 || r.value == PLAYER2)
                && playerName !in players && roster == old(roster) + [r.value]
      ensures r.Ok? && r.value != DRAW ==>
                RandomBattleOutcome(old(roster), playerName, draws, old(players), battleDraw, r.value)
                && DrawnOpponentGone(old(roster), playerName, draws, players)
      ensures forall k :: FirstOtherDraw(old(roster), playerName, draws, k)
                          && old(roster)[Random(draws[k], |old(roster)|)] != "" ==>
                (r.Ok? <==> BattleSettles(old(players), playerName, old(roster)[Random(draws[k], |old(roster)|)],
                                          bet, battleDraw))
    {
      ghost var list := roster;
      ghost var before := players;
      var opponent := CreateRandomOpponent(playerName, draws);
      if opponent.Err? {
        assert !DrawnEmpty(list, playerName, draws);
        return Err(opponent.error);
      }
      if opponent.value == "" {
        if |list| >= 2 {
          ghost var k :| 0 <= k < |draws| && list[Random(draws[k], |list|)] == opponent.value
                         && forall j :: 0 <= j < k ==> list[Random(draws[j], |list|)] == playerName;
          assert FirstOtherDraw(list, playerName, draws, k);
        }
        return Ok(DRAW);
      }
      ghost var k :| 0 <= k < |draws| && list[Random(draws[k], |list|)] == opponent.value
                     && forall j :: 0 <= j < k ==> list[Random(draws[j], |list|)] == playerName;
      assert FirstOtherDraw(list, playerName, draws, k);
      forall l | FirstOtherDraw(list, playerName, draws, l)
        ensures list[Random(draws[l], |list|)] != ""
      {
        FirstOtherDrawUnique(list, playerName, draws, k, l);
      }
      r := Battle(playerName, opponent.value, bet, battleDraw);
      if r.Ok? {
        assert list[Random(draws[k], |list|)] !in players;
        assert RandomBattleOutcome(list, playerName, draws, before, battleDraw, r.value);
      }
    }

    /** `findMatch`: a failing opponent lookup aborts the whole call; the
        random fallback runs only when the picked name is "". */
    method FindMatch(playerName: string, bet: int, draw: nat, draws: seq<nat>, battleDraw: nat)
      returns (r: Result<string>)
      modifies this
      ensures old(Valid()) ==> Valid()
      ensures bet >= 0 && old(Solvent(players)) ==> Solvent(players)
      ensures storeUrl == old(storeUrl)
      ensures r.Err? ==> players == old(players) && roster == old(roster)
      ensures |old(roster)| == 0 ==> r == Err(NoPlayers)
      ensures |old(roster)| == 1 ==> r == Err(NotEnoughPlayers)
      ensures |old(roster)| >= 2 && Others(old(roster), playerName) == [] ==> r == Err(NoOpponents)
      ensures r == Ok(DRAW) ==> players == old(players) && roster == old(roster)
      ensures r.Ok? && r.value != DRAW ==>
                (r.value == PLAYER1 || r.value == PLAYER2)
                && playerName !in players && roster == old(roster) + [r.value]
      ensures |old(roster)| >= 2 && Others(old(roster), playerName) != [] ==>
                var others := Others(old(roster), playerName);
                var opponent := others[Random(draw, |others|)];
                && (opponent != "" ==> r != Ok(DRAW))
                && (opponent == "" ==> (r == Ok(DRAW) <==> DrawnEmpty(old(roster), playerName, draws)))
                && (r.Ok? && r.value != DRAW && opponent != "" ==>
                      && opponent in old(players) && playerName in old(players)
                      && r.value == ChooseWinner(WinChance(old(players)[playerName], old(players)[opponent]),
                                                 battleDraw)
                      && opponent !in players)
                && (r.Ok? && r.value != DRAW && opponent == "" ==>
                      RandomBattleOutcome(old(roster), playerName, draws, old(players), battleDraw, r.value)
                      && DrawnOpponentGone(old(roster), playerName, draws, players))
                && (opponent != "" ==> (r.Ok? <==> BattleSettles(old(players), playerName, opponent, bet, battleDraw)))
                && (opponent == "" ==>
                      forall k :: FirstOtherDraw(old(roster), playerName, draws, k)
                                  && old(roster)[Random(draws[k], |old(roster)|)] != "" ==>
                        (r.Ok? <==> BattleSettles(old(players), playerName,
                                                  old(roster)[Random(draws[k], |old(roster)|)], bet, battleDraw)))
    {
      var opponent := GetRealOpponent(playerName, draw);
      if opponent.Err? {
        return Err(opponent.error);
      }
      if opponent.value == "" {
        r := FindRandomMatch(playerName, bet, draws, battleDraw);
        return;
      }
      r := Battle(playerName, opponent.value, bet, battleDraw);
    }
  }
}
