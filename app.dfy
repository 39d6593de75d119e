/**
 * The session store and navigation controller of the top-level component:
 * pure queries over the session collection, and the class `Controller`
 * holding the three state cells the handlers replace.
 */
module App {
  import opened Types
  import opened ChatService

  // ---------------------------------------------------------------------------
  // `Date.now().toString()`: decimal text of a clock reading
  // ---------------------------------------------------------------------------

  predicate IsDigit(c: char) {
    '0' <= c <= '9'
  }

  function DigitChar(d: nat): (c: char)
    requires d < 10
    ensures IsDigit(c) && c as int - '0' as int == d
  {
    ('0' as int + d) as char
  }

  /** Decimal digits of `n`, most significant first, without leading zeros. */
  function NatToString(n: nat): (r: string)
    ensures |r| > 0
    ensures forall i :: 0 <= i < |r| ==> IsDigit(r[i])
    ensures |r| > 1 ==> r[0] != '0'
  {
    if n < 10 then [DigitChar(n)] else NatToString(n / 10) + [DigitChar(n % 10)]
  }

  /** Reads decimal digits back into a number. */
  function ParseDecimal(s: string): nat {
    if |s| == 0 then 0
    else
      var c := s[|s| - 1];
      10 * ParseDecimal(s[..|s| - 1]) + (if IsDigit(c) then c as int - '0' as int else 0)
  }

  lemma {:induction false} NatToStringRoundTrip(n: nat)
    ensures ParseDecimal(NatToString(n)) == n
  {
    if n >= 10 {
      var prefix := NatToString(n / 10);
      NatToStringRoundTrip(n / 10);
      assert (prefix + [DigitChar(n % 10)])[..|prefix|] == prefix;
    }
  }

  /** Distinct clock readings give distinct session ids. */
  lemma NatToStringInjective(a: nat, b: nat)
    requires NatToString(a) == NatToString(b)
    ensures a == b
  {
    NatToStringRoundTrip(a);
    NatToStringRoundTrip(b);
  }

  // ---------------------------------------------------------------------------
  // Lookup by session id (`findIndex` / `find`)
  // ---------------------------------------------------------------------------

  /** `sessions.findIndex(s => s.id === id)`: the first matching position, or -1. */
  function FirstIndex(sessions: seq<ChatSession>, id: string): (i: int)
    ensures -1 <= i < |sessions|
    ensures 0 <= i ==> sessions[i].id == id && forall j :: 0 <= j < i ==> sessions[j].id != id
    ensures i < 0 <==> forall j :: 0 <= j < |sessions| ==> sessions[j].id != id
  {
    if |sessions| == 0 then -1
    else if sessions[0].id == id then 0
    else
      var k := FirstIndex(sessions[1..], id);
      assert forall j :: 1 <= j < |sessions| ==> sessions[j] == sessions[1..][j - 1];
      if k < 0 then -1 else k + 1
  }

  /** `sessions.find(s => s.id === id)`. */
  function Find(sessions: seq<ChatSession>, id: string): (r: Option<ChatSession>)
    ensures r.Some? ==> r.value.id == id
    // the first session with the id, not merely some session with it
    ensures r.Some? ==> exists k :: 0 <= k < |sessions| && sessions[k] == r.value &&
                                    forall j :: 0 <= j < k ==> sessions[j].id != id
    ensures r.None? <==> forall j :: 0 <= j < |sessions| ==> sessions[j].id != id
  {
    var i := FirstIndex(sessions, id);
    if i < 0 then None else Some(sessions[i])
  }

  /**
   * `getActiveMessages` over a collection and an active id: the messages of
   * the first session with that id; empty when the id is null, empty (falsy)
   * or unknown.
   */
  function ActiveMessages(sessions: seq<ChatSession>, activeId: Option<string>): (r: seq<Message>)
    ensures activeId.None? || activeId.value == "" ==> r == []
    ensures activeId.Some? && (forall j :: 0 <= j < |sessions| ==> sessions[j].id != activeId.value) ==> r == []
    ensures activeId.Some? && activeId.value != "" && 0 <= FirstIndex(sessions, activeId.value)
      ==> r == sessions[FirstIndex(sessions, activeId.value)].messages
  {
    if activeId.None? || activeId.value == "" then []
    else
      match Find(sessions, activeId.value)
      case Some(session) => session.messages
      case None => []
  }

  // ---------------------------------------------------------------------------
  // Update-or-insert of a session's message list
  // ---------------------------------------------------------------------------

  /**
   * The collection `handleUpdateSession(id, messages)` builds: the first
   * session with `id` gets the new messages and `now` as `lastUpdated`;
   * without one, a new session for `characterId` is appended.
   */
  function Upsert(sessions: seq<ChatSession>, id: string, characterId: CharacterId,
                  messages: seq<Message>, now: int): (r: seq<ChatSession>)
    ensures |sessions| <= |r| <= |sessions| + 1
    ensures |r| == |sessions| + 1 <==> forall j :: 0 <= j < |sessions| ==> sessions[j].id != id
    // every existing session keeps its id and character; all but the first match are untouched
    ensures forall j :: 0 <= j < |sessions| ==>
      r[j].id == sessions[j].id && r[j].characterId == sessions[j].characterId
    ensures forall j :: 0 <= j < |sessions| && j != FirstIndex(sessions, id) ==> r[j] == sessions[j]
    // the written session carries exactly the new messages and time
    ensures 0 <= FirstIndex(sessions, id) ==>
      r[FirstIndex(sessions, id)].messages == messages && r[FirstIndex(sessions, id)].lastUpdated == now
    ensures |r| == |sessions| + 1 ==> r[|sessions|] == ChatSession(id, characterId, messages, now)
  {
    var i := FirstIndex(sessions, id);
    if i >= 0 then sessions[i := sessions[i].(messages := messages, lastUpdated := now)]
    else sessions + [ChatSession(id, characterId, messages, now)]
  }

  /** Last write wins: after an upsert of `id`, the messages read back for `id` are the ones written. */
  lemma LastWriteWins(sessions: seq<ChatSession>, id: string, characterId: CharacterId,
                      messages: seq<Message>, now: int)
    ensures var f := Find(Upsert(sessions, id, characterId, messages, now), id);
      f.Some? && f.value.messages == messages && f.value.lastUpdated == now
    ensures id != "" ==> ActiveMessages(Upsert(sessions, id, characterId, messages, now), Some(id)) == messages
  {
    var r := Upsert(sessions, id, characterId, messages, now);
    var i := FirstIndex(sessions, id);
    if i >= 0 {
      assert forall j :: 0 <= j < i ==> r[j].id != id;
      assert FirstIndex(r, id) == i;
    } else {
      assert forall j :: 0 <= j < |sessions| ==> r[j].id != id;
      assert FirstIndex(r, id) == |sessions|;
    }
  }

  // ---------------------------------------------------------------------------
  // Sessions of one character, most recent first
  // ---------------------------------------------------------------------------

  /** `sessions.filter(s => s.characterId === c)`. */
  function OfCharacter(sessions: seq<ChatSession>, c: CharacterId): (r: seq<ChatSession>)
    ensures forall x :: multiset(r)[x] == if x.characterId == c then multiset(sessions)[x] else 0
    ensures forall i :: 0 <= i < |r| ==> r[i].characterId == c
  {
    if |sessions| == 0 then []
    else
      assert sessions == [sessions[0]] + sessions[1..];
      if sessions[0].characterId == c then [sessions[0]] + OfCharacter(sessions[1..], c)
      else OfCharacter(sessions[1..], c)
  }

  lemma ConcatAssoc<T>(x: seq<T>, y: seq<T>, z: seq<T>)
    ensures x + (y + z) == (x + y) + z
  {
  }

  /** The filter on a sequence headed by `x`: `x` first when it belongs to `c`, then the rest filtered. */
  lemma OfCharacterCons(x: ChatSession, s: seq<ChatSession>, c: CharacterId)
    ensures OfCharacter([x] + s, c) == (if x.characterId == c then [x] else []) + OfCharacter(s, c)
  {
    assert ([x] + s)[0] == x && ([x] + s)[1..] == s;
  }

  /** One step of `OfCharacterAppend`: distributing over `a + b` extends to `[x] + a`. */
  lemma OfCharacterAppendStep(x: ChatSession, a: seq<ChatSession>, b: seq<ChatSession>, c: CharacterId)
    requires OfCharacter(a + b, c) == OfCharacter(a, c) + OfCharacter(b, c)
    ensures OfCharacter([x] + (a + b), c) == OfCharacter([x] + a, c) + OfCharacter(b, c)
  {
    OfCharacterCons(x, a + b, c);
    OfCharacterCons(x, a, c);
    ConcatAssoc(if x.characterId == c then [x] else [], OfCharacter(a, c), OfCharacter(b, c));
  }

  /** The filter keeps collection order: it distributes over concatenation. */
  lemma {:induction false} OfCharacterAppend(a: seq<ChatSession>, b: seq<ChatSession>, c: CharacterId)
    ensures OfCharacter(a + b, c) == OfCharacter(a, c) + OfCharacter(b, c)
  {
    if |a| == 0 {
      assert a + b == b && OfCharacter(a, c) == [];
    } else {
      assert a == [a[0]] + a[1..] && a + b == [a[0]] + (a[1..] + b);
      OfCharacterAppend(a[1..], b, c);
      OfCharacterAppendStep(a[0], a[1..], b, c);
    }
  }

  /** A single session is kept exactly when it belongs to `c`. */
  lemma OfCharacterSingleton(x: ChatSession, c: CharacterId)
    ensures OfCharacter([x], c) == if x.characterId == c then [x] else []
  {
    assert [x][1..] == [];
  }

  /** The order `(a, b) => b.lastUpdated - a.lastUpdated` sorts into. */
  ghost predicate NewestFirst(s: seq<ChatSession>) {
    forall i, j :: 0 <= i < j < |s| ==> s[i].lastUpdated >= s[j].lastUpdated
  }

  /** Inserts `x` in front of every element not newer than it. */
  function InsertByRecency(x: ChatSession, s: seq<ChatSession>): (r: seq<ChatSession>)
    requires NewestFirst(s)
    ensures NewestFirst(r)
    ensures multiset(r) == multiset(s) + multiset{x}
    ensures r[0] == x || (|s| > 0 && r[0] == s[0])
  {
    if |s| == 0 || s[0].lastUpdated <= x.lastUpdated then [x] + s
    else
      var rest := InsertByRecency(x, s[1..]);
      assert s == [s[0]] + s[1..];
      assert forall j :: 0 <= j < |rest| ==> rest[0].lastUpdated >= rest[j].lastUpdated;
      assert s[0].lastUpdated >= rest[0].lastUpdated;
      [s[0]] + rest
  }

  /**
   * The stable sort `[...s].sort((a, b) => b.lastUpdated - a.lastUpdated)`:
   * newest first, a permutation of `s`.
   */
  function SortByRecency(s: seq<ChatSession>): (r: seq<ChatSession>)
    ensures NewestFirst(r)
    ensures multiset(r) == multiset(s)
    ensures |r| == |s|
  {
    if |s| == 0 then []
    else
      assert s == [s[0]] + s[1..];
      InsertByRecency(s[0], SortByRecency(s[1..]))
  }

  /** The elements of `s` last updated at `t`, in the order of `s`. */
  function WithTimestamp(s: seq<ChatSession>, t: int): (r: seq<ChatSession>)
    ensures forall i :: 0 <= i < |r| ==> r[i].lastUpdated == t
  {
    if |s| == 0 then []
    else if s[0].lastUpdated == t then [s[0]] + WithTimestamp(s[1..], t)
    else WithTimestamp(s[1..], t)
  }

  /** The selection by timestamp keeps order: it distributes over concatenation. */
  lemma {:induction false} WithTimestampAppend(a: seq<ChatSession>, b: seq<ChatSession>, t: int)
    ensures WithTimestamp(a + b, t) == WithTimestamp(a, t) + WithTimestamp(b, t)
  {
    if |a| == 0 {
      assert a + b == b;
    } else {
      assert (a + b)[0] == a[0] && (a + b)[1..] == a[1..] + b;
      WithTimestampAppend(a[1..], b, t);
    }
  }

  /** A single session is selected exactly when it was last updated at `t`. */
  lemma WithTimestampSingleton(x: ChatSession, t: int)
    ensures WithTimestamp([x], t) == if x.lastUpdated == t then [x] else []
  {
    assert [x][1..] == [];
  }

  lemma {:induction false} InsertKeepsTies(x: ChatSession, s: seq<ChatSession>, t: int)
    requires NewestFirst(s)
    ensures WithTimestamp(InsertByRecency(x, s), t) ==
      (if x.lastUpdated == t then [x] else []) + WithTimestamp(s, t)
  {
    var r := InsertByRecency(x, s);
    if |s| == 0 || s[0].lastUpdated <= x.lastUpdated {
      assert r[0] == x && r[1..] == s;
    } else {
      var rest := InsertByRecency(x, s[1..]);
      assert r[0] == s[0] && r[1..] == rest;
      InsertKeepsTies(x, s[1..], t);
    }
  }

  /** The sort is stable: sessions with equal `lastUpdated` keep their relative order. */
  lemma {:induction false} SortIsStable(s: seq<ChatSession>, t: int)
    ensures WithTimestamp(SortByRecency(s), t) == WithTimestamp(s, t)
  {
    if |s| > 0 {
      SortIsStable(s[1..], t);
      InsertKeepsTies(s[0], SortByRecency(s[1..]), t);
    }
  }

  /**
   * Reference definition of the session `handleCharacterSelect` resumes: the
   * position of the first session of `c` whose `lastUpdated` is maximal among
   * `c`'s sessions, or -1 when `c` has none.
   */
  function MostRecentOf(s: seq<ChatSession>, c: CharacterId): (i: int)
    ensures -1 <= i < |s|
    ensures i < 0 <==> forall j :: 0 <= j < |s| ==> s[j].characterId != c
    ensures 0 <= i ==> s[i].characterId == c
    ensures 0 <= i ==> forall j :: 0 <= j < |s| && s[j].characterId == c ==> s[j].lastUpdated <= s[i].lastUpdated
    ensures 0 <= i ==> forall j :: 0 <= j < i && s[j].characterId == c ==> s[j].lastUpdated < s[i].lastUpdated
  {
    if |s| == 0 then -1
    else
      var k := MostRecentOf(s[..|s| - 1], c);
      var last := s[|s| - 1];
      assert forall j :: 0 <= j < |s| - 1 ==> s[j] == s[..|s| - 1][j];
      if last.characterId != c then k
      else if k < 0 || last.lastUpdated > s[k].lastUpdated then |s| - 1
      else k
  }

  /** The first session of `c` last updated at `t` heads `WithTimestamp(OfCharacter(s, c), t)`. */
  lemma {:induction false} FirstTieHeadsFilter(s: seq<ChatSession>, c: CharacterId, i: nat)
    requires i < |s| && s[i].characterId == c
    requires forall j :: 0 <= j < i && s[j].characterId == c ==> s[j].lastUpdated != s[i].lastUpdated
    ensures var w := WithTimestamp(OfCharacter(s, c), s[i].lastUpdated); |w| > 0 && w[0] == s[i]
  {
    var t := s[i].lastUpdated;
    if i == 0 {
      assert OfCharacter(s, c) == [s[0]] + OfCharacter(s[1..], c);
    } else {
      FirstTieHeadsFilter(s[1..], c, i - 1);
      if s[0].characterId == c {
        var f := OfCharacter(s, c);
        assert f == [s[0]] + OfCharacter(s[1..], c);
        assert f[0].lastUpdated != t && f[1..] == OfCharacter(s[1..], c);
      }
    }
  }

  /** The sessions of `c` are non-empty exactly when `MostRecentOf` finds one. */
  lemma OfCharacterNonEmpty(s: seq<ChatSession>, c: CharacterId)
    ensures |OfCharacter(s, c)| > 0 <==> MostRecentOf(s, c) >= 0
  {
    var i := MostRecentOf(s, c);
    if i >= 0 {
      assert s[i] in multiset(s);
      assert s[i] in multiset(OfCharacter(s, c));
    }
  }

  /** The head of the sorted sessions of `c` carries the largest `lastUpdated` of `c`. */
  lemma SortedHeadTimestamp(s: seq<ChatSession>, c: CharacterId)
    requires MostRecentOf(s, c) >= 0
    ensures |SortByRecency(OfCharacter(s, c))| > 0
    ensures SortByRecency(OfCharacter(s, c))[0].lastUpdated == s[MostRecentOf(s, c)].lastUpdated
  {
    var f := OfCharacter(s, c);
    var i := MostRecentOf(s, c);
    var r := SortByRecency(f);
    OfCharacterNonEmpty(s, c);
    // r[0] is a session of c, so it is not newer than s[i]
    assert r[0] in multiset(f);
    assert r[0] in s;
    // s[i] occurs in r, so r[0] is not older than s[i]
    assert s[i] in multiset(s);
    assert s[i] in multiset(r);
  }

  /**
   * The head of the sorted sessions of `c` is the session chosen by
   * `MostRecentOf`: maximal `lastUpdated`, the earliest one among ties.
   */
  lemma SortedHeadIsMostRecent(s: seq<ChatSession>, c: CharacterId)
    ensures |OfCharacter(s, c)| > 0 <==> MostRecentOf(s, c) >= 0
    ensures |OfCharacter(s, c)| > 0 ==> SortByRecency(OfCharacter(s, c))[0] == s[MostRecentOf(s, c)]
  {
    OfCharacterNonEmpty(s, c);
    var i := MostRecentOf(s, c);
    if i >= 0 {
      var f := OfCharacter(s, c);
      var r := SortByRecency(f);
      var t := s[i].lastUpdated;
      SortedHeadTimestamp(s, c);
      SortIsStable(f, t);
      FirstTieHeadsFilter(s, c, i);
      assert WithTimestamp(r, t)[0] == r[0];
    }
  }

  /**
   * `getCharacterHistory`: the sessions of the selected character, newest
   * first; empty when no character is selected.
   */
  function CharacterHistory(sessions: seq<ChatSession>, selected: Option<Character>): (r: seq<ChatSession>)
    ensures selected.None? ==> r == []
    ensures selected.Some? ==> NewestFirst(r)
    ensures selected.Some? ==> forall x ::
      multiset(r)[x] == if x.characterId == selected.value.id then multiset(sessions)[x] else 0
  {
    if selected.None? then [] else SortByRecency(OfCharacter(sessions, selected.value.id))
  }

  /** Sessions of the history that share a `lastUpdated` appear in collection order. */
  lemma HistoryKeepsTies(sessions: seq<ChatSession>, c: Character, t: int)
    ensures WithTimestamp(CharacterHistory(sessions, Some(c)), t) == WithTimestamp(OfCharacter(sessions, c.id), t)
  {
    SortIsStable(OfCharacter(sessions, c.id), t);
  }

  // ---------------------------------------------------------------------------
  // The controller
  // ---------------------------------------------------------------------------

  /** What the top-level component renders. */
  datatype Screen =
    | Home
    | Chatting(character: Character, sessionId: string, history: seq<ChatSession>, initialMessages: seq<Message>)

  class Controller {
    const storage: ChatStorage
    var selectedCharacter: Option<Character>
    var allSessions: seq<ChatSession>
    var activeSessionId: Option<string>

    /** The first render state, then the mount effect that loads the stored sessions. */
    constructor (storage: ChatStorage, readFails: bool)
      ensures this.storage == storage
      ensures selectedCharacter == None && activeSessionId == None
      ensures !readFails && storage.item.Some? && storage.item.value.Document?
        ==> allSessions == storage.item.value.sessions
      ensures readFails || storage.item.None? || storage.item.value.Unparsable? ==> allSessions == []
    {
      this.storage := storage;
      selectedCharacter := None;
      activeSessionId := None;
      new;
      allSessions := storage.Load(readFails);
    }

    /**
     * The view condition of the render: the chat view, with the character's
     * history and the active messages as props, exactly when a character is
     * selected and the active id is non-null and non-empty.
     */
    function CurrentScreen(): (v: Screen)
      reads this
      ensures v.Chatting? <==> selectedCharacter.Some? && activeSessionId.Some? && activeSessionId.value != ""
      ensures v.Chatting? ==>
        && v.character == selectedCharacter.value && v.sessionId == activeSessionId.value
        && v.history == CharacterHistory(allSessions, selectedCharacter)
        && v.initialMessages == ActiveMessages(allSessions, activeSessionId)
    {
      if selectedCharacter.Some? && activeSessionId.Some? && activeSessionId.value != "" then
        Chatting(selectedCharacter.value, activeSessionId.value,
                 CharacterHistory(allSessions, selectedCharacter), ActiveMessages(allSessions, activeSessionId))
      else Home
    }

    /**
     * `handleCharacterSelect`: selects `character` and resumes its most
     * recently updated session, or, without one, takes the clock reading
     * `now` as a new id; no session record is created.
     */
    method HandleCharacterSelect(character: Character, now: nat)
      modifies this
      ensures selectedCharacter == Some(character)
      ensures allSessions == old(allSessions)
      ensures var i := MostRecentOf(allSessions, character.id);
        activeSessionId == Some(if i >= 0 then allSessions[i].id else NatToString(now))
      ensures CurrentScreen().Chatting? <==> activeSessionId.value != ""
    {
      selectedCharacter := Some(character);
      var charSessions := OfCharacter(allSessions, character.id);
      SortedHeadIsMostRecent(allSessions, character.id);
      if |charSessions| > 0 {
        var sorted := SortByRecency(charSessions);
        activeSessionId := Some(sorted[0].id);
      } else {
        activeSessionId := Some(NatToString(now));
      }
    }

    /** `handleBackToHome`: clears the character and the active id. */
    method HandleBackToHome()
      modifies this
      ensures selectedCharacter == None && activeSessionId == None
      ensures allSessions == old(allSessions)
      ensures CurrentScreen() == Home
    {
      selectedCharacter := None;
      activeSessionId := None;
    }

    /** `handleCreateNewSession`: a fresh active id from the clock; nothing else changes. */
    method HandleCreateNewSession(now: nat)
      modifies this
      ensures activeSessionId == Some(NatToString(now))
      ensures selectedCharacter == old(selectedCharacter) && allSessions == old(allSessions)
      ensures selectedCharacter.Some? ==> CurrentScreen().Chatting?
    {
      var newId := NatToString(now);
      activeSessionId := Some(newId);
    }

    /** `handleSelectSession`: switches the active id; nothing else changes. */
    method HandleSelectSession(sessionId: string)
      modifies this
      ensures activeSessionId == Some(sessionId)
      ensures selectedCharacter == old(selectedCharacter) && allSessions == old(allSessions)
    {
      activeSessionId := Some(sessionId);
    }

    /**
     * `handleUpdateSession`: without a selected character, nothing happens.
     * Otherwise the collection is copied, the first session with `sessionId`
     * is rewritten in place (or a new one pushed), the copy is saved
     * (`saveFails` is the storage write failing) and becomes the state.
     */
    method HandleUpdateSession(sessionId: string, messages: seq<Message>, now: int, saveFails: bool)
      modifies this, storage
      ensures selectedCharacter == old(selectedCharacter) && activeSessionId == old(activeSessionId)
      ensures old(selectedCharacter).None? ==> allSessions == old(allSessions) && storage.item == old(storage.item)
      ensures old(selectedCharacter).Some? ==>
        allSessions == Upsert(old(allSessions), sessionId, old(selectedCharacter).value.id, messages, now)
      ensures old(selectedCharacter).Some? ==>
        storage.item == if saveFails then old(storage.item) else Some(Document(allSessions))
      ensures old(selectedCharacter).Some? && sessionId != "" && activeSessionId == Some(sessionId)
        ==> ActiveMessages(allSessions, activeSessionId) == messages
    {
      if selectedCharacter.None? {
        return;
      }
      var existingIndex := FirstIndex(allSessions, sessionId);
      var newSessions := allSessions;
      if existingIndex >= 0 {
        newSessions := newSessions[existingIndex := newSessions[existingIndex].(messages := messages, lastUpdated := now)];
      } else {
        newSessions := newSessions + [ChatSession(sessionId, selectedCharacter.value.id, messages, now)];
      }
      storage.Save(newSessions, saveFails);
      allSessions := newSessions;
      LastWriteWins(old(allSessions), sessionId, selectedCharacter.value.id, messages, now);
    }
  }
}
