# FightClub contract model

A Dafny model of the FightClub NEO smart contract (`among-us/FightClub/main.go`),
a small fighting-game economy. Players register, spend skill points on speed,
stamina and strength, buy items through a two-phase oracle purchase, and fight
1v1 battles for a wager. Opponents are found among the registered names.

The contract's storage is the class `FightClub.Contract`. It has three fields:

- `players`: the records stored under player names.
- `roster`: the list stored under `playersList`.
- `storeUrl`: the catalog URL stored under `storeURL`.

Each public or internal contract function that touches storage is a member of
that class: the lookups are functions, everything else is a method. A `panic`
aborts a NEO transaction and rolls back all its writes, so each member returns
an `Err`/`Fail` value instead. Every postcondition states that nothing changed
on that path.

neo-go exports only the capitalised functions as contract methods. `findMatch`,
`findRandomMatch`, `battle`, `distributeWinnings`, `getRealOpponent` and
`createRandomOpponent` cannot be called from a transaction. The whole battle
flow, including the negative-bet case below, runs only as internal code.

Values are kept apart from storage:

- `Chance`: the clamped win chance and the draw. It proves the chance's bounds,
  its symmetry under swapping fighters and its monotonicity. It also counts the
  rolls each side wins on.
- `Decimal`: the decimal text used in the oracle filter, with its parser and a
  round-trip proof.
- `Lists`: the `contains` scan and the opponent filter.
- `FightClub`: the record updates (point allocation, settlement) as functions,
  and the storage class.

Randomness is passed in. Every `runtime.GetRandom()` is a natural-number draw
given as a parameter, and `random(a)` is `draw % a`.

The model keeps these behaviours of the code:

- The winner's name handed to settlement is the label `"player1"` or `"player2"`,
  not a fighter's name. A battle therefore settles only if someone is registered
  under that label. That record gets the bet. Both fighters' records are deleted,
  and the label is appended to the list. The loser's debit is never stored.
- A failing real-opponent lookup aborts `findMatch`. It does not fall back to the
  random match. The fallback runs only when the picked name is `""`.
- `createRandomOpponent` draws from all list entries, duplicates included, not
  from distinct names.
- Records of defeated players stay named in the list, so list entries need not
  have a record.
- Balances are not kept non-negative. A negative bet or price passes every check.
  `NegativeBetOverdraws` exhibits a settlement that leaves a negative balance. The
  methods' `Solvent` postconditions show which operations keep balances
  non-negative, and under what condition on the bet.
- `DistributePoints` does not refuse negative increments.

## Model

| member | source | states |
|---|---|---|
| `FightClub.Contract.constructor` | among-us/FightClub/main.go:24-32 | the deployed state holds only the catalog URL, and it satisfies the storage invariant |
| `FightClub.Contract.NewPlayer` | among-us/FightClub/main.go:34-55 | fails with AlreadyExists, nothing written, iff the name's key is taken. Otherwise stores balance 20, points 5, zero attributes and no items, and appends the name at the end of the list. Keeps the invariant and solvency |
| `FightClub.StartingRecord` | among-us/FightClub/main.go:43-51 | the new record carries the name, balance 20, points 5, zero attributes and no items, so its attribute total is 5 |
| `FightClub.Contract.UpdatePlayersList` | among-us/FightClub/main.go:57-67 | the new list is the old list with the name appended, duplicates allowed. Records are untouched |
| `FightClub.Contract.GetPlayer` | among-us/FightClub/main.go:69-76 | succeeds iff a record is stored under the name and returns it. Under the invariant, the record carries that name |
| `FightClub.Contract.Balance` | among-us/FightClub/main.go:78-81 | the stored record's balance, or NotFound |
| `FightClub.Contract.Items` | among-us/FightClub/main.go:83-86 | the stored record's items, or NotFound |
| `FightClub.Contract.AllPlayers` | among-us/FightClub/main.go:158-167 | the stored list, empty when none is stored |
| `FightClub.Allocate` | among-us/FightClub/main.go:149-152 | each attribute grows by its increment and points drop by the sum. Attributes plus points is preserved. Name, balance and items are unchanged |
| `FightClub.Contract.DistributePoints` | among-us/FightClub/main.go:144-156 | NotFound for a missing player. Fails with nothing written iff the increments sum to more than the unallocated points. Otherwise only that record changes, to its allocation |
| `Lists.Contains` | among-us/FightClub/main.go:106-113 | true iff some element equals the item |
| `Decimal.Itoa10` | among-us/FightClub/main.go:102 | the text is an optional minus sign and at least one digit, and it starts with a minus sign iff the value is negative |
| `FightClub.ItemFilter` | among-us/FightClub/main.go:102 | the filter is the prefix `$.store.item[`, then the decimal text of the id, then `]` |
| `FightClub.ItemFilterAddressesItem` | among-us/FightClub/main.go:102 | the filter is `$.store.item[` + decimal id + `]`, the bracketed index reads back as the id, and different ids give different filters |
| `Decimal.Itoa10RoundTrip` | among-us/FightClub/main.go:102 | parsing the decimal text of an integer gives the integer back |
| `FightClub.Contract.BuyItem` | among-us/FightClub/main.go:88-104 | NotFound for a missing player. Fails with AlreadyPurchased iff the item is already owned. Otherwise writes nothing and returns the one request: store URL, item filter, callback `cbBuyItem`, user data the player name, gas twice the minimum response gas |
| `FightClub.Contract.CbBuyItem` | among-us/FightClub/main.go:115-142 | checks in order: caller is the oracle, code is Success, payload has at least two bytes and decodes, player exists, balance at least price. Every failure writes nothing. On success balance drops by the price and the id is appended to items, with no duplicate check. Nothing else changes |
| `Chance.Clamp` | among-us/FightClub/main.go:212 | the result lies in [5,95]. Values in range are kept, values below 5 become 5, values above 95 become 95 |
| `Chance.Step` | among-us/FightClub/main.go:210-213 | equal values leave the chance as it is. Different values give a chance in [5,95]. From a chance in range, the step is the clamp of the chance plus 5 times the difference |
| `Chance.WinChance` | among-us/FightClub/main.go:207-225 | the chance always lies in [5,95] |
| `Chance.EvenOdds` | among-us/FightClub/main.go:207-225 | equal attributes give exactly 50 |
| `Chance.SpeedLeadSaturates` | among-us/FightClub/main.go:210-213 | speed 10 against 0, the rest equal, gives 95 |
| `Chance.ClampIsSequential` | among-us/FightClub/main.go:210-222 | the clamp follows each step. Speed +20 then stamina -10 gives 45, where one clamp at the end would give 95 |
| `Chance.WinChanceSwap` | among-us/FightClub/main.go:207-225 | swapping player and opponent gives 100 minus the chance |
| `Chance.WinChanceMonotone` | among-us/FightClub/main.go:207-225 | raising any player attribute never lowers the chance |
| `Chance.Random` | among-us/FightClub/main.go:196-198 | the draw reduced modulo n lies in [0,n), and a draw already in range is kept |
| `Chance.ChooseWinner` | among-us/FightClub/main.go:255-262 | returns "player1" exactly when the roll is `<=` the chance, otherwise "player2". Never "draw" |
| `Chance.RollCounts` | among-us/FightClub/main.go:255-262 | with the inclusive `<=`, chance c names player1 on c+1 of the 100 rolls and player2 on the other 99-c |
| `Chance.InitiatorEdge` | among-us/FightClub/main.go:239-240 | the initiating fighter wins on two more rolls than the same fighter challenged by the same opponent |
| `FightClub.SettlePlayers` | among-us/FightClub/main.go:269-280 | neither fighter keeps a record. Every other record is kept. A winner distinct from both fighters is stored with balance plus bet |
| `FightClub.SettleKeepsSolvent` | among-us/FightClub/main.go:269-280 | with a non-negative bet, settlement leaves no negative balance |
| `FightClub.NegativeBetOverdraws` | among-us/FightClub/main.go:227-280 | a store where both fighters have records and zero balances cover a bet of -5 passes `battle`'s checks, and settling it with the label "player1" as winner leaves that record's balance at -5 |
| `FightClub.Contract.DistributeWinnings` | among-us/FightClub/main.go:264-284 | NotFound, nothing written, iff one of the three records is missing. Otherwise records become the settlement and the list gains the winner at the end |
| `FightClub.Contract.Battle` | among-us/FightClub/main.go:227-253 | checks in order, each failure writing nothing: opponent record exists, opponent name is non-empty, player record exists, both balances cover the bet. The label chosen from the win chance is the winner's name for settlement. It succeeds iff a record under that label exists, and then both fighters are gone and the label is appended |
| `Lists.Others` | among-us/FightClub/main.go:181-187 | the filtered list holds every entry not equal to the caller's name, as often as it occurs in the list, and no other name. It is empty iff every entry is the caller's |
| `FightClub.Contract.GetRealOpponent` | among-us/FightClub/main.go:169-194 | NoPlayers with no list and NotEnoughPlayers with one entry. NoOpponents iff every entry is the caller's. Otherwise the drawn element of the filtered list, a list entry different from the caller |
| `FightClub.Contract.CreateRandomOpponent` | among-us/FightClub/main.go:304-319 | `""` for fewer than two entries. Otherwise the first drawn entry that is not the caller's, or RetriesExhausted when every draw hits the caller |
| `FightClub.Contract.FindRandomMatch` | among-us/FightClub/main.go:295-302 | "draw" with nothing written exactly when there are fewer than two entries or the first drawn entry that is not the caller's is `""`. RetriesExhausted when every draw hits the caller. Against a non-empty entry it succeeds exactly when `battle` would: both records pass its checks and a record is stored under the label drawn. Then the result is `ChooseWinner` of their win chance and the battle draw, both records are gone, and the label is appended to the list |
| `FightClub.Contract.FindMatch` | among-us/FightClub/main.go:286-293 | the opponent lookup's errors abort with nothing written. A non-empty filtered entry taken by the draw is fought, never a draw. The call succeeds exactly when `battle` would against it: both records pass its checks and a record is stored under the label drawn. The result is `ChooseWinner` of the two stored records' win chance and the battle draw, and both records are gone. When that entry is `""`, the result is the random fallback's: "draw" exactly when its first drawn entry that is not the caller's is `""`, otherwise the battle against that entry, with the same success condition and guarantees. A fought battle appends the label to the list |

## Left out

- `_deploy` is not modelled as a call. The constructor gives the state it leaves, with the catalog URL as a parameter.
- `runtime.Log` calls are left out. They have no effect on storage or results.
- Storage is a typed map plus a list. The byte format of `std.Serialize`/`std.Deserialize` is not modelled. An absent list and an empty list are the same, and no operation stores an empty list.
- Storage keys are shared between player names and the two fixed keys. `NewPlayer` refuses both fixed keys as taken. The source refuses `playersList` only once a list is stored. Before that it would overwrite the list key with a record, which the model does not capture. Reading a fixed key as a player record is modelled as NotFound.
- `oracle.Request` and its delivery are a foreign call. `BuyItem` returns the request as a value. Gas accounting is not modelled.
- `std.JSONDeserialize` is a foreign call. `CbBuyItem` takes the decoder as a function of the stripped payload. A non-string `userData` is not modelled; it is a panic of the type assertion.
- `std.Itoa10` is a foreign call. `Decimal.Itoa10` is a plain decimal rendering that stands in for it. The `std.Itoa` in the failure message is not modelled.
- `runtime.GetRandom` is external. Each draw is a parameter.
- `runtime.GetCallingScriptHash` is runtime identity. It is a `caller` parameter compared with the oracle contract's hash.
- The float64 conversions in `calculateWinningChances` are an integer clamp. Converting an integer to float64 cannot move it across 5 or 95.
- `abs` is left out. Nothing calls it.
- Ordering between transactions is outside one call: a replayed or lost oracle callback, or a change between request and callback. The contract keeps no pending-purchase state, so none is modelled.
- CreateRandomOpponent: the source's re-roll loop runs until a draw misses the caller, or forever when every entry is the caller's. The model takes a finite sequence of draws and reports RetriesExhausted when they run out.
- FindMatch: states the lookup errors, the draw case, which opponent is fought, when the battle succeeds, the label returned and that both fighters' records are gone. It does not restate which error a failed battle returns, the credited record or the full settled store; `Battle` states those.
- FindRandomMatch: states the same consequences as FindMatch, not which error a failed battle returns, the credited record or the full settled store; `Battle` states those.
- NEO's storage limits are not modelled: a `Put` aborts when the key is longer than 64 bytes or the value longer than 65535 bytes. `NewPlayer` therefore succeeds in the model for a name longer than 64 bytes, where main.go:52 aborts. `UpdatePlayersList` succeeds for a list whose serialized form passes 65535 bytes, where main.go:66 aborts, and so `NewPlayer` and `DistributeWinnings`, which append to the list, succeed where the source aborts. The model's storage is unbounded.
- NeoVM's integer width is not modelled: an Integer holds at most 32 bytes, and an arithmetic result beyond that aborts the transaction, while the model's `int` is unbounded. `DistributePoints` succeeds for increments whose sum overflows at main.go:146 (or whose record update overflows at main.go:149-152). `Chance.WinChance` and `Chance.Step` return a clamped chance where `(a - b) * 5` overflows at main.go:211, 216 or 220, so `Battle` succeeds where the source aborts. `CbBuyItem` debits a price whose difference overflows at main.go:135, and `DistributeWinnings` credits a bet whose sum overflows at main.go:269.
