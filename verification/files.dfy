/**
 * The token file: the lookup of a stored token for a server and user, the write that
 * replaces any earlier token of that pair, and what a newly created data file holds. The file
 * system and the JSON text are outside the model: a read is given as its outcome.
 */
module Files {
  import opened Wrappers
  import opened Errors
  import opened Models

  // ---------------------------------------------------------------------------------------
  // Data files
  // ---------------------------------------------------------------------------------------

  const HistoryFile := "history.txt"
  const TokenFile := "token.json"
  const LogFile := "log.txt"

  /** `ensure_file_exists`: what is written when the file is missing (nothing when it exists). */
  function CreatedContent(file: string, present: bool): (written: Option<string>)
    ensures present <==> written.None?
    ensures !present && file == TokenFile ==> written == Some("[]")
    ensures !present && file != TokenFile ==> written == Some("")
  {
    if present then None else if file == "token.json" then Some("[]") else Some("")
  }

  /** Only the token file starts out as an empty JSON list; history and log start empty. */
  lemma OnlyTokenFileIsAList()
    ensures CreatedContent(TokenFile, false) == Some("[]")
    ensures CreatedContent(HistoryFile, false) == Some("") && CreatedContent(LogFile, false) == Some("")
  {
    assert HistoryFile[0] != TokenFile[0] && LogFile[0] != TokenFile[0];
  }

  // ---------------------------------------------------------------------------------------
  // Lookup
  // ---------------------------------------------------------------------------------------

  predicate Matches(e: TokenEntry, hostname: string, username: string) {
    e.hostname == hostname && e.username == username
  }

  /** The token of the first entry for the pair, if any. */
  function FirstToken(entries: seq<TokenEntry>, hostname: string, username: string): Option<string>
    decreases |entries|
  {
    if entries == [] then None
    else if Matches(entries[0], hostname, username) then Some(entries[0].token)
    else FirstToken(entries[1..], hostname, username)
  }

  /** `FirstToken` finds the first matching entry, and none when no entry matches. */
  lemma {:induction false} FirstTokenExact(entries: seq<TokenEntry>, hostname: string, username: string)
    ensures FirstToken(entries, hostname, username).None? <==>
      forall i :: 0 <= i < |entries| ==> !Matches(entries[i], hostname, username)
    ensures FirstToken(entries, hostname, username).Some? ==>
      exists i :: 0 <= i < |entries| && Matches(entries[i], hostname, username)
        && FirstToken(entries, hostname, username).value == entries[i].token
        && forall j :: 0 <= j < i ==> !Matches(entries[j], hostname, username)
    decreases |entries|
  {
    if entries != [] {
      var tail := entries[1..];
      FirstTokenExact(tail, hostname, username);
      if Matches(entries[0], hostname, username) {
        assert FirstToken(entries, hostname, username).value == entries[0].token;
      } else {
        forall i | 1 <= i < |entries| ensures entries[i] == tail[i - 1] {
        }
        if FirstToken(tail, hostname, username).Some? {
          var k :| 0 <= k < |tail| && Matches(tail[k], hostname, username)
            && FirstToken(tail, hostname, username).value == tail[k].token
            && forall j :: 0 <= j < k ==> !Matches(tail[j], hostname, username);
          assert Matches(entries[k + 1], hostname, username);
        }
      }
    }
  }

  /** The search loop of `get_token_from_tokenfile`, over the entries read. */
  method FindToken(entries: seq<TokenEntry>, hostname: string, username: string) returns (token: Option<string>)
    ensures token == FirstToken(entries, hostname, username)
  {
    var i := 0;
    while i < |entries|
      invariant 0 <= i <= |entries|
      invariant FirstToken(entries, hostname, username) == FirstToken(entries[i..], hostname, username)
    {
      if entries[i].hostname == hostname && entries[i].username == username {
        return Some(entries[i].token);
      }
      assert entries[i..][1..] == entries[i + 1..];
      i := i + 1;
    }
    return None;
  }

  /** `get_token_from_tokenfile`: a file that cannot be read or parsed is an error. */
  method GetTokenFromTokenfile(read: Result<seq<TokenEntry>, AppError>, hostname: string, username: string)
    returns (r: Result<Option<string>, AppError>)
    ensures read.Failure? ==> r == Failure(read.error)
    ensures read.Success? ==> r == Success(FirstToken(read.value, hostname, username))
  {
    if read.Failure? {
      return Failure(read.error);
    }
    var token := FindToken(read.value, hostname, username);
    r := Success(token);
  }

  // ---------------------------------------------------------------------------------------
  // Write
  // ---------------------------------------------------------------------------------------

  /** `retain`: the entries that belong to another server or user, in their order. */
  function Others(entries: seq<TokenEntry>, hostname: string, username: string): (r: seq<TokenEntry>)
    ensures forall e :: e in r <==> e in entries && !Matches(e, hostname, username)
    decreases |entries|
  {
    if entries == [] then []
    else
      var rest := Others(entries[1..], hostname, username);
      assert forall e :: e in entries <==> e == entries[0] || e in entries[1..];
      if Matches(entries[0], hostname, username) then rest else [entries[0]] + rest
  }

  /** The entries written back: the others, then the new entry. */
  function Upsert(entries: seq<TokenEntry>, entry: TokenEntry): (r: seq<TokenEntry>)
    ensures |r| >= 1 && r[|r| - 1] == entry
    ensures forall i :: 0 <= i < |r| - 1 ==> !Matches(r[i], entry.hostname, entry.username)
    ensures forall e :: e in r[..|r| - 1] <==> e in entries && !Matches(e, entry.hostname, entry.username)
  {
    var others := Others(entries, entry.hostname, entry.username);
    assert (others + [entry])[..|others|] == others;
    assert forall i :: 0 <= i < |others| ==> others[i] in others;
    others + [entry]
  }

  /**
   * The outcome of reading the token file before a write: the text could not be read (then
   * the list starts empty), or it was read and then parsed (a parse error is passed on).
   */
  datatype TokenRead = Unreadable | Read(parsed: Result<seq<TokenEntry>, AppError>)

  /** `write_token_to_tokenfile`: the entries it writes, or the parse error. */
  function WriteTokenToTokenfile(read: TokenRead, entry: TokenEntry): (r: Result<seq<TokenEntry>, AppError>)
    ensures read.Unreadable? ==> r == Success([entry])
    ensures read.Read? && read.parsed.Failure? ==> r == Failure(read.parsed.error)
    ensures read.Read? && read.parsed.Success? ==> r == Success(Upsert(read.parsed.value, entry))
  {
    match read
    case Unreadable =>
      assert Others([], entry.hostname, entry.username) == [];
      assert Upsert([], entry) == [entry];
      Success(Upsert([], entry))
    case Read(parsed) =>
      if parsed.Failure? then Failure(parsed.error) else Success(Upsert(parsed.value, entry))
  }

  /**
   * The kept entries of a list are those kept of each of its parts, one part after the other:
   * together with `OthersKeepsForeign`, a write keeps the other pairs' entries in their order.
   */
  lemma {:induction false} OthersAppend(a: seq<TokenEntry>, b: seq<TokenEntry>, hostname: string, username: string)
    ensures Others(a + b, hostname, username) == Others(a, hostname, username) + Others(b, hostname, username)
    decreases |a|
  {
    if a == [] {
      assert a + b == b;
    } else {
      assert (a + b)[0] == a[0];
      assert (a + b)[1..] == a[1..] + b;
      OthersAppend(a[1..], b, hostname, username);
    }
  }

  /** Entries of other pairs only are kept whole, in order. */
  lemma {:induction false} OthersKeepsForeign(entries: seq<TokenEntry>, hostname: string, username: string)
    requires forall i :: 0 <= i < |entries| ==> !Matches(entries[i], hostname, username)
    ensures Others(entries, hostname, username) == entries
    decreases |entries|
  {
    if entries != [] {
      OthersKeepsForeign(entries[1..], hostname, username);
      assert entries == [entries[0]] + entries[1..];
    }
  }

  /** Round trip: after writing a token, looking the pair up finds that token. */
  lemma {:induction false} WriteThenFind(entries: seq<TokenEntry>, entry: TokenEntry)
    ensures FirstToken(Upsert(entries, entry), entry.hostname, entry.username) == Some(entry.token)
  {
    var r := Upsert(entries, entry);
    FirstTokenExact(r, entry.hostname, entry.username);
    assert Matches(r[|r| - 1], entry.hostname, entry.username);
  }

  /** Writing the token of one pair leaves the lookup of every other pair as it was. */
  lemma {:induction false} WriteKeepsOtherLookups(entries: seq<TokenEntry>, entry: TokenEntry, hostname: string, username: string)
    requires !Matches(entry, hostname, username)
    ensures FirstToken(Upsert(entries, entry), hostname, username) == FirstToken(entries, hostname, username)
    decreases |entries|
  {
    var others := Others(entries, entry.hostname, entry.username);
    OthersLookup(entries, entry.hostname, entry.username, hostname, username);
    FirstTokenAppend(others, entry, hostname, username);
  }

  /** Dropping the entries of one pair does not change the lookup of another. */
  lemma {:induction false} OthersLookup(entries: seq<TokenEntry>, h: string, u: string, hostname: string, username: string)
    requires h != hostname || u != username
    ensures FirstToken(Others(entries, h, u), hostname, username) == FirstToken(entries, hostname, username)
    decreases |entries|
  {
    if entries != [] {
      OthersLookup(entries[1..], h, u, hostname, username);
      var rest := Others(entries[1..], h, u);
      if !Matches(entries[0], h, u) {
        assert ([entries[0]] + rest)[1..] == rest;
      }
    }
  }

  /** An entry appended for another pair is never found before the earlier ones. */
  lemma {:induction false} FirstTokenAppend(entries: seq<TokenEntry>, e: TokenEntry, hostname: string, username: string)
    requires !Matches(e, hostname, username)
    ensures FirstToken(entries + [e], hostname, username) == FirstToken(entries, hostname, username)
    decreases |entries|
  {
    if entries == [] {
      assert ([e])[1..] == [];
    } else {
      assert (entries + [e])[1..] == entries[1..] + [e];
      FirstTokenAppend(entries[1..], e, hostname, username);
    }
  }
}
