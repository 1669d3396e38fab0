/**
 * The game service: creating a game record with a fresh six-digit search id,
 * and letting a second player join it by that id. The document collection is a
 * map from search id to record; the clock and the random draws are parameters.
 */
module GameSessions {
  import opened Wrappers
  import opened WinRule
  import Numerals

  datatype GameType = Gomoku

  datatype CreateGameRequest = CreateGameRequest(userId: string, gameType: GameType)

  datatype JoinGameRequest = JoinGameRequest(userId: string, searchId: string)

  /** The stored board: the two stone lists. */
  datatype BoardDoc = BoardDoc(black: seq<Coord>, white: seq<Coord>)

  /** The `data` payload of a Gomoku game. */
  datatype GomokuData = GomokuData(p1UserId: string, p2UserId: Option<string>,
                                   p1Color: string, p2Color: string, board: BoardDoc)

  /** A game record as stored in the `games` collection. */
  datatype Game = Game(id: string, searchId: string, userId: string, gameType: GameType,
                       createdAt: int, updatedAt: int, isActive: bool, canJoin: bool,
                       data: GomokuData)

  /** Not found (HTTP 404) and not active or not joinable (HTTP 400). */
  datatype JoinError = NotFound | NotJoinable

  /** The range `random.randint(100000, 999999)` draws search ids from. */
  const SearchIdLow: int := 100000
  const SearchIdHigh: int := 999999

  predicate Joinable(g: Game)
  {
    g.isActive && g.canJoin
  }

  /** Every draw lies in the range `randint` draws from. */
  predicate ValidDraws(draws: seq<int>)
  {
    forall i :: 0 <= i < |draws| ==> SearchIdLow <= draws[i] <= SearchIdHigh
  }

  /** The game id: the lowercase hexadecimal text of the millisecond count, as `hex(ms)[2:]` gives it. */
  function CreateGameId(millis: int): (id: string)
    ensures |id| >= 1
    ensures millis == 0 ==> id == "0"
    ensures millis >= 0 ==> Numerals.IsDigits(id, 16) && Numerals.FromBase(id, 16) == millis
    ensures millis >= 0 && millis > 0 ==> id[0] != '0'
    ensures millis < 0 ==> |id| >= 2 && id[0] == 'x' && Numerals.IsDigits(id[1..], 16)
                           && Numerals.FromBase(id[1..], 16) == -millis
  {
    if millis >= 0 then
      Numerals.ToBaseRoundTrip(millis, 16);
      Numerals.ToBaseNoLeadingZero(millis, 16);
      Numerals.ToBase(millis, 16)
    else
      // hex() of a negative number is "-0x..."; dropping two characters leaves "x...".
      Numerals.ToBaseRoundTrip(-millis, 16);
      assert (['x'] + Numerals.ToBase(-millis, 16))[1..] == Numerals.ToBase(-millis, 16);
      ['x'] + Numerals.ToBase(-millis, 16)
  }

  /** Games created at different milliseconds get different ids, negative counts included. */
  lemma DistinctMillisDistinctIds(m1: int, m2: int)
    requires m1 != m2
    ensures CreateGameId(m1) != CreateGameId(m2)
  {
    var id1, id2 := CreateGameId(m1), CreateGameId(m2);
    if m1 >= 0 && m2 >= 0 {
      assert Numerals.FromBase(id1, 16) != Numerals.FromBase(id2, 16);
    } else if m1 < 0 && m2 < 0 {
      assert Numerals.FromBase(id1[1..], 16) != Numerals.FromBase(id2[1..], 16);
    } else if m1 < 0 {
      // A negative count's id starts with 'x', which is not a hexadecimal digit.
      assert Numerals.DigitValue(id1[0]) == 16 && Numerals.DigitValue(id2[0]) < 16;
    } else {
      assert Numerals.DigitValue(id2[0]) == 16 && Numerals.DigitValue(id1[0]) < 16;
    }
  }

  /** `str(n)` for a drawn search id. */
  function SearchIdText(n: int): (text: string)
    requires n >= 0
  {
    Numerals.ToBase(n, 10)
  }

  /** A drawn search id is six decimal digits that read back as the number drawn. */
  lemma SearchIdTextShape(n: int)
    requires SearchIdLow <= n <= SearchIdHigh
    ensures |SearchIdText(n)| == 6
    ensures Numerals.IsDigits(SearchIdText(n), 10) && Numerals.FromBase(SearchIdText(n), 10) == n
  {
    assert Numerals.Pow(10, 5) == 100000 by {
      assert Numerals.Pow(10, 1) == 10;
      assert Numerals.Pow(10, 2) == 100;
      assert Numerals.Pow(10, 3) == 1000;
      assert Numerals.Pow(10, 4) == 10000;
    }
    assert Numerals.Pow(10, 6) == 1000000;
    Numerals.ToBaseLength(n, 10, 6);
    Numerals.ToBaseRoundTrip(n, 10);
  }

  /** The service and its `games` collection, keyed by search id. */
  class GameService {
    var games: map<string, Game>

    /** Every record is filed under its own search id. */
    ghost predicate Valid()
      reads this
    {
      forall k :: k in games ==> games[k].searchId == k
    }

    constructor ()
      ensures games == map[] && Valid()
    {
      games := map[];
    }

    /**
     * Tries the drawn numbers in order and returns the text of the first one no
     * stored game uses as its search id. The source draws without bound; the
     * model returns None once the given draws are used up.
     */
    method CreateSearchId(draws: seq<int>) returns (searchId: Option<string>)
      requires Valid() && ValidDraws(draws)
      ensures searchId.None? ==> forall i :: 0 <= i < |draws| ==> SearchIdText(draws[i]) in games
      ensures searchId.Some? ==>
                && searchId.value !in games
                && (forall k :: k in games ==> games[k].searchId != searchId.value)
                && |searchId.value| == 6
                && exists i :: 0 <= i < |draws| && searchId.value == SearchIdText(draws[i])
                               && forall j :: 0 <= j < i ==> SearchIdText(draws[j]) in games
    {
      var i := 0;
      while i < |draws|
        invariant 0 <= i <= |draws|
        invariant forall j :: 0 <= j < i ==> SearchIdText(draws[j]) in games
      {
        var candidate := SearchIdText(draws[i]);
        if candidate !in games {
          SearchIdTextShape(draws[i]);
          return Some(candidate);
        }
        i := i + 1;
      }
      return None;
    }

    /**
     * Builds and stores a new record: active, joinable, owned by the creator,
     * with the creator as black player one, no player two and an empty board.
     * `idMillis`, `createdAt` and `updatedAt` are the three clock readings.
     */
    method CreateGame(request: CreateGameRequest, idMillis: int, createdAt: int, updatedAt: int,
                      draws: seq<int>) returns (r: Option<Game>)
      requires Valid() && ValidDraws(draws)
      modifies this
      ensures r.None? ==> games == old(games) && forall i :: 0 <= i < |draws| ==> SearchIdText(draws[i]) in games
      ensures r.Some? ==>
                var g := r.value;
                && g.searchId !in old(games)
                && |g.searchId| == 6
                && games == old(games)[g.searchId := g]
                && g.id == CreateGameId(idMillis)
                && g.userId == request.userId && g.gameType == request.gameType
                && g.createdAt == createdAt && g.updatedAt == updatedAt
                && g.isActive && g.canJoin
                && g.data == GomokuData(request.userId, None, "black", "white", BoardDoc([], []))
                && (forall k :: k in old(games) ==> old(games)[k].searchId != g.searchId)
      ensures Valid()
    {
      var id := CreateGameId(idMillis);
      var searchId := CreateSearchId(draws);
      if searchId.None? {
        return None;
      }
      var g := Game(id, searchId.value, request.userId, request.gameType, createdAt, updatedAt, true, true,
                    GomokuData(request.userId, None, "black", "white", BoardDoc([], [])));
      games := games[g.searchId := g];
      return Some(g);
    }

    /**
     * Binds the joiner as player two and closes the game to further joins.
     * The stored record keeps its old `updatedAt`; only the returned copy
     * carries `now`. Nothing compares the joiner with player one.
     */
    method JoinGame(request: JoinGameRequest, now: int) returns (r: Result<Game, JoinError>)
      modifies this
      ensures request.searchId !in old(games) ==> r == Failure(NotFound) && games == old(games)
      ensures request.searchId in old(games) && !Joinable(old(games)[request.searchId]) ==>
                r == Failure(NotJoinable) && games == old(games)
      ensures request.searchId in old(games) && Joinable(old(games)[request.searchId]) ==>
                var g := old(games)[request.searchId];
                var stored := g.(canJoin := false, data := g.data.(p2UserId := Some(request.userId)));
                && games == old(games)[request.searchId := stored]
                && r == Success(stored.(updatedAt := now))
      ensures r.Success? ==> request.searchId in games && !Joinable(games[request.searchId])
      ensures old(Valid()) ==> Valid()
    {
      if request.searchId !in games {
        return Failure(NotFound);
      }
      var g := games[request.searchId];
      if !g.isActive || !g.canJoin {
        return Failure(NotJoinable);
      }
      match g.gameType
      case Gomoku =>
        g := g.(data := g.data.(p2UserId := Some(request.userId)));
        g := g.(canJoin := false);
        games := games[request.searchId := g];
      g := g.(updatedAt := now);
      return Success(g);
    }
  }

  /**
   * A fresh service: the creator opens a game, a second user joins it (even
   * the creator again), and any later join on the same search id fails.
   */
  method JoinOnceScenario(creator: string, joiner: string, latecomer: string,
                          idMillis: int, clock: int, draw: int)
    returns (created: Option<Game>, first: Result<Game, JoinError>, second: Result<Game, JoinError>)
    requires SearchIdLow <= draw <= SearchIdHigh
    ensures created.Some?
    ensures created.value.data.p1UserId == creator && created.value.data.p2UserId == None
    ensures created.value.data.p1Color == "black" && Joinable(created.value)
    ensures first.Success? && first.value.data.p2UserId == Some(joiner)
    ensures first.value.data.p2Color == "white" && !first.value.canJoin
    ensures first.value.updatedAt == clock + 1 && first.value.createdAt == clock
    ensures second == Failure(NotJoinable)
  {
    var service := new GameService();
    var draws := [draw];
    assert SearchIdText(draws[0]) !in service.games;
    created := service.CreateGame(CreateGameRequest(creator, Gomoku), idMillis, clock, clock, draws);
    var searchId := created.value.searchId;
    first := service.JoinGame(JoinGameRequest(joiner, searchId), clock + 1);
    second := service.JoinGame(JoinGameRequest(latecomer, searchId), clock + 2);
  }
}
