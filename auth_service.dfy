/** The user service's account creation: the 8-character referral code drawn from a
    36-symbol alphabet, the fields `createUser` forces on a new user, and the lookup by id.
    The random draws are an input: one index below 36 per character. */
module AuthService {
  import opened Common

  const Alphabet := "ABCDEFGHIJKLMNOPQRSTUVWXYZ0123456789"
  const CodeLength := 8
  const UserRole := "user"

  /** The fields of `CreateUserDto`. */
  datatype CreateUserDto = CreateUserDto(
    name: string,
    email: string,
    phone: Option<string>,
    provider: string,
    providerUserId: Option<string>,
    password: Option<string>,
    referralCode: Option<string>)

  /** The user document `createUser` saves. */
  datatype UserDocument = UserDocument(
    name: string,
    email: string,
    phone: Option<string>,
    provider: string,
    providerUserId: Option<string>,
    password: Option<string>,
    referralCode: string,
    role: string)

  predicate ValidDraws(draws: seq<int>) {
    forall k :: 0 <= k < |draws| ==> 0 <= draws[k] < |Alphabet|
  }

  /** The code spelled by a sequence of alphabet indices. */
  function CodeOf(draws: seq<int>): (code: string)
    requires ValidDraws(draws)
    ensures |code| == |draws|
    ensures forall k :: 0 <= k < |code| ==> code[k] == Alphabet[draws[k]] && code[k] in Alphabet
    decreases |draws|
  {
    if |draws| == 0 then "" else CodeOf(draws[..|draws| - 1]) + [Alphabet[draws[|draws| - 1]]]
  }

  /** No symbol occurs twice in the alphabet. */
  lemma AlphabetDistinct()
    ensures forall i, j :: 0 <= i < j < |Alphabet| ==> Alphabet[i] != Alphabet[j]
  {
    AlphabetCodes();
  }

  /** The letters `A`-`Z` take character codes 65-90, the digits `0`-`9` codes 48-57. */
  lemma AlphabetCodes()
    ensures forall k :: 0 <= k < |Alphabet| ==> Alphabet[k] as int == if k < 26 then 65 + k else 22 + k
  {
  }

  /** Different draws spell different codes, so there are 36^8 possible codes. */
  lemma CodeDeterminesDraws(d1: seq<int>, d2: seq<int>)
    requires ValidDraws(d1) && ValidDraws(d2) && |d1| == |d2|
    requires CodeOf(d1) == CodeOf(d2)
    ensures d1 == d2
  {
    AlphabetDistinct();
    forall k | 0 <= k < |d1|
      ensures d1[k] == d2[k]
    {
      assert Alphabet[d1[k]] == CodeOf(d1)[k] == CodeOf(d2)[k] == Alphabet[d2[k]];
    }
  }

  /** `generateReferralCode`: eight characters, each the alphabet symbol at its draw. */
  method GenerateReferralCode(draws: seq<int>) returns (code: string)
    requires |draws| == CodeLength && ValidDraws(draws)
    ensures code == CodeOf(draws)
    ensures |code| == CodeLength
  {
    code := "";
    var i := 0;
    while i < CodeLength
      invariant 0 <= i <= CodeLength
      invariant code == CodeOf(draws[..i])
    {
      var next := draws[..i + 1];
      assert next[..i] == draws[..i] && next[i] == draws[i];
      assert CodeOf(next) == CodeOf(draws[..i]) + [Alphabet[draws[i]]];
      code := code + [Alphabet[draws[i]]];
      i := i + 1;
    }
    assert draws[..CodeLength] == draws;
  }

  /** The document saved for a new user: every input field copied, the referral code
      replaced by the generated one and the role forced to `user`. */
  function NewUser(dto: CreateUserDto, code: string): (u: UserDocument)
    ensures u.role == UserRole && u.referralCode == code
    ensures && u.name == dto.name && u.email == dto.email && u.phone == dto.phone
            && u.provider == dto.provider && u.providerUserId == dto.providerUserId
            && u.password == dto.password
  {
    UserDocument(dto.name, dto.email, dto.phone, dto.provider, dto.providerUserId, dto.password, code, UserRole)
  }

  /** A referral code in the input never reaches the saved user. */
  lemma InputCodeIgnored(dto: CreateUserDto, given: Option<string>, code: string)
    ensures NewUser(dto.(referralCode := given), code) == NewUser(dto, code)
  {
  }

  /** The user collection of the user service. */
  class UserCollection {
    var users: map<string, UserDocument>

    constructor (users: map<string, UserDocument>)
      ensures this.users == users
    {
      this.users := users;
    }

    /** `createUser(dto)` saved under the fresh id `id`, with the referral code the draws
        spell. */
    method CreateUser(id: string, dto: CreateUserDto, draws: seq<int>) returns (u: UserDocument)
      requires |draws| == CodeLength && ValidDraws(draws)
      requires id !in users
      modifies this
      ensures u == NewUser(dto, CodeOf(draws))
      ensures users == old(users)[id := u]
    {
      var code := GenerateReferralCode(draws);
      u := NewUser(dto, code);
      users := users[id := u];
    }

    /** `getUserById(userId)`: the user, or nothing for an unknown id. */
    method GetUserById(userId: string) returns (u: Option<UserDocument>)
      ensures u.None? <==> userId !in users
      ensures u.Some? ==> u.value == users[userId]
    {
      u := if userId in users then Some(users[userId]) else None;
    }
  }
}
