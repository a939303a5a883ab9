/**
 * The user commands' own decisions: the shape of `UserNew` and the post it becomes (with a
 * generated password), the filters of `UserDelete` and `UserInfo`, and the "option, else
 * positional" username.
 */
module UserCommands {
  import opened Wrappers
  import opened Errors
  import opened Shared
  import Derive

  // ---------------------------------------------------------------------------------------
  // Passwords
  // ---------------------------------------------------------------------------------------

  /** The characters the password generator draws from: ASCII letters and digits. */
  predicate IsAlphanumeric(c: char) {
    ('A' <= c <= 'Z') || ('a' <= c <= 'z') || ('0' <= c <= '9')
  }

  /** Upper-case letters, then lower-case letters, then digits: 62 characters. */
  const AlphabetSize := 62

  function AlphabetChar(k: nat): (c: char)
    requires k < AlphabetSize
    ensures IsAlphanumeric(c)
  {
    if k < 26 then (('A' as int) + k) as char
    else if k < 52 then (('a' as int) + (k - 26)) as char
    else (('0' as int) + (k - 52)) as char
  }

  /** Where a letter or digit sits in the alphabet: every one of them can be drawn. */
  function AlphabetIndex(c: char): (k: nat)
    requires IsAlphanumeric(c)
    ensures k < AlphabetSize && AlphabetChar(k) == c
  {
    if 'A' <= c <= 'Z' then (c as int) - ('A' as int)
    else if 'a' <= c <= 'z' then (c as int) - ('a' as int) + 26
    else (c as int) - ('0' as int) + 52
  }

  /** The random source: the `i`-th draw picks a character of the alphabet. */
  type Draws = nat -> nat

  /** `generate_random_password`: `length` characters, each one draw from the alphabet. */
  function GeneratePassword(length: nat, draw: Draws): (p: string)
    ensures |p| == length
    ensures forall i :: 0 <= i < length ==> IsAlphanumeric(p[i])
  {
    var p := seq(length, (i: int) requires 0 <= i < length => AlphabetChar(draw(i) % AlphabetSize));
    assert forall i :: 0 <= i < length ==> p[i] == AlphabetChar(draw(i) % AlphabetSize);
    p
  }

  /** A draw already inside the alphabet picks that very character. */
  lemma SmallDrawKept(k: nat)
    requires k < AlphabetSize
    ensures k % AlphabetSize == k
  {
  }

  /** Whatever the draws, any password of the right length and alphabet can come out. */
  lemma EveryPasswordPossible(p: string)
    requires forall i :: 0 <= i < |p| ==> IsAlphanumeric(p[i])
    ensures exists draw: Draws :: GeneratePassword(|p|, draw) == p
  {
    var draw: Draws := (i: nat) => if i < |p| then AlphabetIndex(p[i]) else 0;
    var g := GeneratePassword(|p|, draw);
    forall i | 0 <= i < |p| ensures g[i] == p[i] {
      assert draw(i) == AlphabetIndex(p[i]);
      SmallDrawKept(draw(i));
    }
    assert g == p;
  }

  // ---------------------------------------------------------------------------------------
  // `UserNew`
  // ---------------------------------------------------------------------------------------

  datatype UserNew = UserNew(username: string, email: Option<string>)

  datatype UserPost = UserPost(username: string, email: Option<string>, password: string)

  const UserNewFields: seq<Derive.Field> := [
    Derive.Field("username", Derive.StringType, Derive.FieldOpts(Some("u"), Some("username"), Some("Username of the user"), None, None)),
    Derive.Field("email", Derive.OptionString, Derive.FieldOpts(Some("e"), Some("email"), Some("Email address for the user"), None, None))]

  /** The username must be given, the email may be left out. */
  lemma UserNewRequired()
    ensures var opts := Derive.DerivedOptions(UserNewFields);
      |opts| == 3 && opts[0].required && !opts[1].required && !opts[0].flag && !opts[1].flag
  {
    Derive.RequiredRule(UserNewFields, 0);
    Derive.RequiredRule(UserNewFields, 1);
  }

  /** The length of every generated password. */
  const PasswordLength := 20

  /** `into_post`: username and email are kept, and a fresh 20-character alphanumeric password is added. */
  function IntoPost(u: UserNew, draw: Draws): (r: UserPost)
    ensures r.username == u.username && r.email == u.email
    ensures |r.password| == 20 && forall i :: 0 <= i < |r.password| ==> IsAlphanumeric(r.password[i])
  {
    UserPost(u.username, u.email, GeneratePassword(PasswordLength, draw))
  }

  // ---------------------------------------------------------------------------------------
  // The username and the filters
  // ---------------------------------------------------------------------------------------

  /** `username_or_pos`: the `--username` option, else the positional at `pos`, else `MissingOptions(["username"])`. */
  function UsernameOrPos(username: Option<string>, positionals: seq<string>, pos: nat): (r: Result<Option<string>, AppError>)
    ensures username.Some? ==> r == Success(username)
    ensures username.None? && pos < |positionals| ==> r == Success(Some(positionals[pos]))
    ensures username.None? && pos >= |positionals| ==> r == Failure(MissingOptions(["username"]))
  {
    OrPositional(username, positionals, pos, "username")
  }

  /** The search of `UserDelete`: a case-insensitive filter on the username, when one is given. */
  method UserDeleteFilters(username: Option<string>) returns (filters: seq<QueryFilter>)
    ensures filters == OnlyPresent([Wanted("username", username, IContains(false))])
  {
    assert [Wanted("username", username, IContains(false))][1..] == [];
    filters := [];
    if username.Some? {
      filters := filters + [QueryFilter("username", username.value, IContains(false))];
    }
  }

  /**
   * The filters `UserInfo` asks for: username and email by case-insensitive containment,
   * the two timestamps (as their text) by equality.
   */
  function UserInfoWanted(username: Option<string>, email: Option<string>, createdAt: Option<string>, updatedAt: Option<string>): seq<Wanted> {
    [Wanted("username", username, IContains(false)), Wanted("email", email, IContains(false)),
     Wanted("created_at", createdAt, Equals(false)), Wanted("updated_at", updatedAt, Equals(false))]
  }

  /** The search of `UserInfo`: the four filters in that order, each only when its value is given. */
  method UserInfoFilters(username: Option<string>, email: Option<string>, createdAt: Option<string>, updatedAt: Option<string>)
    returns (filters: seq<QueryFilter>)
    ensures filters == OnlyPresent(UserInfoWanted(username, email, createdAt, updatedAt))
  {
    var w := UserInfoWanted(username, email, createdAt, updatedAt);
    OnlyPresentFour(w[0], w[1], w[2], w[3]);
    filters := [];
    if username.Some? {
      filters := filters + [QueryFilter("username", username.value, IContains(false))];
    }
    assert filters == Present(w[0]);
    if email.Some? {
      filters := filters + [QueryFilter("email", email.value, IContains(false))];
    }
    assert filters == Present(w[0]) + Present(w[1]);
    if createdAt.Some? {
      filters := filters + [QueryFilter("created_at", createdAt.value, Equals(false))];
    }
    assert filters == Present(w[0]) + Present(w[1]) + Present(w[2]);
    if updatedAt.Some? {
      filters := filters + [QueryFilter("updated_at", updatedAt.value, Equals(false))];
    }
  }

  /** With only the timestamps given, `UserInfo` searches by exact creation time, then exact update time. */
  lemma UserInfoTimestampsOnly(createdAt: string, updatedAt: string)
    ensures OnlyPresent(UserInfoWanted(None, None, Some(createdAt), Some(updatedAt)))
      == [QueryFilter("created_at", createdAt, Equals(false)), QueryFilter("updated_at", updatedAt, Equals(false))]
  {
    var w := UserInfoWanted(None, None, Some(createdAt), Some(updatedAt));
    OnlyPresentFour(w[0], w[1], w[2], w[3]);
  }
}
