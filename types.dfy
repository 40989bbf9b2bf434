/** Values shared by the FightClub contract model: the player record, the
    errors a transaction can abort with, and the oracle request it emits. */
module Types {

  /** The record stored under a player's name (main.go, type Player). */
  datatype Player = Player(
    name: string,
    speed: int,
    stamina: int,
    strength: int,
    balance: int,
    items: seq<int>,
    points: int)

  /** Every `panic` of the contract, one constructor per message. A panic
      aborts the NEO transaction, so each of these means "nothing written". */
  datatype Error =
    | AlreadyExists          // "player already exists"
    | NotFound               // "player not found"
    | AlreadyPurchased       // "item has already been purchased"
    | Unauthorized           // "not called from the oracle contract"
    | RequestFailed          // "request failed for ..."
    | MalformedPayload       // slicing result[1:len-1] out of range
    | InsufficientBalance    // "insufficient balance"
    | NotEnoughPoints        // "not enough points"
    | OpponentNotFound       // "opponent not found"
    | InsufficientStake      // "insufficient balance for the battle"
    | NoPlayers              // "no players available"
    | NotEnoughPlayers       // "not enough players for an opponent"
    | NoOpponents            // "no available opponents"
    | RetriesExhausted       // the re-roll loop did not stop within the draws given

  datatype Option<T> = None | Some(value: T)

  datatype Result<T> = Ok(value: T) | Err(error: Error)

  datatype Outcome = Pass | Fail(error: Error)

  /** What `oracle.Request` is called with. */
  datatype OracleRequest = OracleRequest(
    url: string,
    filter: string,
    callback: string,
    userData: string,
    gasForResponse: int)

  type Hash160 = seq<bv8>

  /** Storage keys that are not player names. */
  const STORE_URL_KEY: string := "storeURL"
  const PLAYERS_LIST_KEY: string := "playersList"

  const STARTING_BALANCE: int := 20
  const STARTING_POINTS: int := 5

  /** The labels `chooseWinner` returns and `findRandomMatch`'s fallback. */
  const PLAYER1: string := "player1"
  const PLAYER2: string := "player2"
  const DRAW: string := "draw"

  const CALLBACK_NAME: string := "cbBuyItem"

  /** oracle.MinimumResponseGas of the NEO native oracle, 0.1 GAS. */
  const MINIMUM_RESPONSE_GAS: int := 10_000_000

  /** oracle.Success, the response code of a successful request. */
  const ORACLE_SUCCESS: int := 0

  /** Script hash of the native oracle contract (little-endian byte order). */
  const ORACLE_HASH: Hash160 :=
    [0x58, 0x87, 0x17, 0x11, 0x7e, 0x0a, 0xa8, 0x10, 0x72, 0xaf,
     0xab, 0x71, 0xd2, 0xdd, 0x89, 0xfe, 0x7c, 0x4b, 0x92, 0xfe]
}
