/** The role resolver: the bearer token kept under "token" is checked for
    the three-part compact shape of section 7.1 of RFC 7515, its payload
    segment is rewritten from the base64url alphabet to the base64 alphabet
    of section 5 of RFC 4648 and decoded, an expired payload (the `exp`
    claim of section 4.1.4 of RFC 7519) removes the token, and the role
    claim is reduced to lower-case letters and mapped onto a user type. */
module Auth {
  import opened Wrappers
  import opened Ascii
  import opened Seqs
  import opened Storage

  const Dot: char := '.'

  /** `isValidTokenFormat`: exactly three dot-separated parts, none empty. */
  predicate IsValidTokenFormat(token: string) {
    var parts := Split(token, Dot);
    |parts| == 3 && parts[0] != [] && parts[1] != [] && parts[2] != []
  }

  /** Every header.payload.signature string whose three parts are non-empty
      and free of dots passes the format check, and its second part is the
      payload segment. */
  lemma CompactTokenAccepted(header: string, payload: string, signature: string)
    requires header != [] && payload != [] && signature != []
    requires Dot !in header && Dot !in payload && Dot !in signature
    ensures IsValidTokenFormat(header + [Dot] + payload + [Dot] + signature)
    ensures Split(header + [Dot] + payload + [Dot] + signature, Dot)[1] == payload
  {
    var parts := [header, payload, signature];
    var token := header + [Dot] + payload + [Dot] + signature;
    assert forall i :: 0 <= i < |parts| ==> Dot !in parts[i];
    JoinThree(header, payload, signature);
    SplitJoin(parts, Dot);
    assert Split(token, Dot) == parts;
  }

  lemma JoinThree(a: string, b: string, c: string)
    ensures Join([a, b, c], Dot) == a + [Dot] + b + [Dot] + c
  {
    var parts := [a, b, c];
    assert parts[1..] == [b, c];
    assert [b, c][1..] == [c];
    assert Join([b, c], Dot) == b + [Dot] + c;
    assert Join(parts, Dot) == a + [Dot] + (b + [Dot] + c);
  }

  /** Conversely, a token that passes the check is its three parts joined by
      two dots. */
  lemma ValidTokenIsCompact(token: string)
    requires IsValidTokenFormat(token)
    ensures var parts := Split(token, Dot);
      token == parts[0] + [Dot] + parts[1] + [Dot] + parts[2]
  {
    var parts := Split(token, Dot);
    assert parts[1..] == [parts[1], parts[2]];
    assert parts[1..][1..] == [parts[2]];
  }

  /** The empty string is one empty part, so it never passes. */
  lemma EmptyTokenRejected()
    ensures !IsValidTokenFormat("")
  {
    assert Split("", Dot) == [""];
  }

  /** The payload segment of a well-formed token. */
  function PayloadSegment(token: string): string
    requires IsValidTokenFormat(token)
  {
    Split(token, Dot)[1]
  }

  /** One character of the `-`→`+`, `_`→`/` rewrite. */
  function UrlToStdChar(c: char): char {
    if c == '-' then '+' else if c == '_' then '/' else c
  }

  /** The reverse rewrite, `+`→`-`, `/`→`_`. */
  function StdToUrlChar(c: char): char {
    if c == '+' then '-' else if c == '/' then '_' else c
  }

  /** `replace(/-/g, '+').replace(/_/g, '/')`. */
  function Base64UrlToBase64(s: string): (r: string)
    ensures |r| == |s|
    ensures forall i :: 0 <= i < |s| ==> r[i] == UrlToStdChar(s[i])
  {
    seq(|s|, i requires 0 <= i < |s| => UrlToStdChar(s[i]))
  }

  function Base64ToBase64Url(s: string): (r: string)
    ensures |r| == |s|
    ensures forall i :: 0 <= i < |s| ==> r[i] == StdToUrlChar(s[i])
  {
    seq(|s|, i requires 0 <= i < |s| => StdToUrlChar(s[i]))
  }

  /** The 64 letters of the base64 alphabet (Table 1 of RFC 4648). */
  predicate IsBase64Char(c: char) {
    IsUpperAlpha(c) || IsLowerAlpha(c) || IsDigit(c) || c == '+' || c == '/'
  }

  /** The 64 letters of the base64url alphabet (Table 2 of RFC 4648). */
  predicate IsBase64UrlChar(c: char) {
    IsUpperAlpha(c) || IsLowerAlpha(c) || IsDigit(c) || c == '-' || c == '_'
  }

  /** The rewrite takes base64url text to base64 text, leaves no '-' or '_'
      behind, changes nothing when applied again, and is undone by the
      reverse rewrite on base64url text. */
  lemma Base64UrlRewrite(s: string)
    ensures forall i :: 0 <= i < |s| && IsBase64UrlChar(s[i]) ==> IsBase64Char(Base64UrlToBase64(s)[i])
    ensures forall i :: 0 <= i < |s| ==> Base64UrlToBase64(s)[i] != '-' && Base64UrlToBase64(s)[i] != '_'
    ensures Base64UrlToBase64(Base64UrlToBase64(s)) == Base64UrlToBase64(s)
    ensures (forall i :: 0 <= i < |s| ==> IsBase64UrlChar(s[i])) ==> Base64ToBase64Url(Base64UrlToBase64(s)) == s
  {
  }

  /** A claim of the decoded JSON payload: missing, a string, or some other
      JSON value. */
  datatype Claim = Missing | Text(text: string) | NotText

  /** The `roles` claim: an array of claims, or anything else. */
  datatype RolesClaim = NotArray | Roles(items: seq<Claim>)

  /** The claims the resolver reads; `exp` is a number of seconds. */
  datatype JwtPayload = JwtPayload(role: Claim, roles: RolesClaim, exp: Option<int>)

  /** `isTokenExpired` at the time `now`, in whole seconds. An absent or
      zero `exp` is falsy and never expires. */
  predicate IsTokenExpired(p: JwtPayload, now: int) {
    if p.exp.None? || p.exp.value == 0 then false else p.exp.value < now
  }

  /** Expiry is permanent as time goes on, a zero `exp` never expires, and a
      token is still accepted during the second its `exp` names. */
  lemma ExpiryProperties(p: JwtPayload, now: int, later: int)
    requires now <= later
    ensures IsTokenExpired(p, now) ==> IsTokenExpired(p, later)
    ensures p.exp == Some(0) ==> !IsTokenExpired(p, later)
    ensures p.exp.Some? ==> !IsTokenExpired(p, p.exp.value)
  {
  }

  /** How `decodeJwtPayload` ends. */
  datatype Decoding = Undecodable | Expired | Decoded(payload: JwtPayload)

  /** `decodeJwtPayload` as a value. `decode` stands for the base64
      decoding, the percent-decoding and `JSON.parse` of the rewritten
      payload segment, with `None` for any of them throwing. */
  function DecodeToken(token: string, decode: string -> Option<JwtPayload>, now: int): (r: Decoding)
    ensures !IsValidTokenFormat(token) ==> r == Undecodable
    ensures r.Decoded? ==>
      (IsValidTokenFormat(token)
       && decode(Base64UrlToBase64(PayloadSegment(token))) == Some(r.payload)
       && !IsTokenExpired(r.payload, now))
    ensures r.Expired? ==>
      (IsValidTokenFormat(token)
       && decode(Base64UrlToBase64(PayloadSegment(token))).Some?
       && IsTokenExpired(decode(Base64UrlToBase64(PayloadSegment(token))).value, now))
    ensures r == Undecodable ==> !IsValidTokenFormat(token) || decode(Base64UrlToBase64(PayloadSegment(token))).None?
  {
    if token == [] then Undecodable
    else if !IsValidTokenFormat(token) then Undecodable
    else match decode(Base64UrlToBase64(Split(token, Dot)[1]))
      case None => Undecodable
      case Some(p) => if IsTokenExpired(p, now) then Expired else Decoded(p)
  }

  /** `decodeJwtPayload`: only an expired payload touches the storage, and
      then it removes the token and nothing else. */
  method DecodeJwtPayload(storage: LocalStorage, token: string, decode: string -> Option<JwtPayload>, now: int)
    returns (r: Option<JwtPayload>)
    modifies storage
    ensures r == if DecodeToken(token, decode, now).Decoded? then Some(DecodeToken(token, decode, now).payload) else None
    ensures storage.items == if DecodeToken(token, decode, now).Expired? then old(storage.items) - {TokenKey} else old(storage.items)
  {
    if token == [] {
      return None;
    }
    if !IsValidTokenFormat(token) {
      return None;
    }
    var parts := Split(token, Dot);
    var base64 := Base64UrlToBase64(parts[1]);
    var payload := decode(base64);
    if payload.None? {
      return None;
    }
    if IsTokenExpired(payload.value, now) {
      storage.RemoveItem(TokenKey);
      return None;
    }
    r := payload;
  }

  /** `sanitizeRole`: lower-case, trim, then keep only 'a'..'z'. */
  function SanitizeRole(role: string): (r: string)
    ensures forall i :: 0 <= i < |r| ==> IsLowerAlpha(r[i])
  {
    Filter(Trim(ToLower(role)), IsLowerAlpha)
  }

  /** A string of lower-case letters is already sanitised. */
  lemma SanitizeKeepsLowerAlpha(s: string)
    requires forall i :: 0 <= i < |s| ==> IsLowerAlpha(s[i])
    ensures SanitizeRole(s) == s
  {
    assert ToLower(s) == s;
    assert Trim(s) == s by {
      assert s == [] || !IsSpace(s[0]);
      assert TrimStart(s) == s;
      assert s == [] || !IsSpace(s[|s| - 1]);
      assert TrimEnd(s) == s;
    }
    FilterAll(s, IsLowerAlpha);
  }

  /** Sanitising twice is sanitising once. */
  lemma SanitizeIdempotent(role: string)
    ensures SanitizeRole(SanitizeRole(role)) == SanitizeRole(role)
  {
    SanitizeKeepsLowerAlpha(SanitizeRole(role));
  }

  /** Filtering letters out of white space leaves nothing. */
  lemma LettersOfSpace(s: string)
    requires AllSpace(s)
    ensures Filter(s, IsLowerAlpha) == []
  {
  }

  /** The trim inside `sanitizeRole` is redundant: white space is removed by
      the letter filter anyway. */
  lemma TrimIsRedundant(role: string)
    ensures SanitizeRole(role) == Filter(ToLower(role), IsLowerAlpha)
  {
    LettersIgnorePadding(ToLower(role));
  }

  /** Letters of a string are the letters of its trimmed core. */
  lemma LettersIgnorePadding(x: string)
    ensures Filter(x, IsLowerAlpha) == Filter(Trim(x), IsLowerAlpha)
  {
    var t := TrimStart(x);
    assert Trim(x) == TrimEnd(t);
    LettersIgnoreLead(x);
    LettersIgnoreTail(t);
  }

  lemma LettersIgnoreLead(x: string)
    ensures Filter(x, IsLowerAlpha) == Filter(TrimStart(x), IsLowerAlpha)
  {
    var t := TrimStart(x);
    TrimStartDropsSpace(x);
    var lead := x[..|x| - |t|];
    assert x == lead + t;
    FilterAppend(lead, t, IsLowerAlpha);
    LettersOfSpace(lead);
  }

  lemma LettersIgnoreTail(t: string)
    ensures Filter(t, IsLowerAlpha) == Filter(TrimEnd(t), IsLowerAlpha)
  {
    var u := TrimEnd(t);
    TrimEndDropsSpace(t);
    var tail := t[|u|..];
    assert t == u + tail;
    FilterAppend(u, tail, IsLowerAlpha);
    LettersOfSpace(tail);
  }

  /** The role named in a decoded payload: a non-empty string `role`, else a
      string first element of a non-empty `roles` array; either one is
      sanitised. */
  function RoleOfPayload(p: JwtPayload): (r: Option<string>)
    ensures p.role.Text? && p.role.text != [] ==> r == Some(SanitizeRole(p.role.text))
    ensures !(p.role.Text? && p.role.text != []) && p.roles.Roles? && |p.roles.items| > 0 && p.roles.items[0].Text? ==>
      r == Some(SanitizeRole(p.roles.items[0].text))
    ensures r.Some? ==> (p.role.Text? && p.role.text != []) || (p.roles.Roles? && |p.roles.items| > 0 && p.roles.items[0].Text?)
  {
    if p.role.Text? && p.role.text != [] then Some(SanitizeRole(p.role.text))
    else if p.roles.Roles? && |p.roles.items| > 0 && p.roles.items[0].Text? then Some(SanitizeRole(p.roles.items[0].text))
    else None
  }

  /** The role `getUserRoleFromToken` finds with the storage `items`. */
  function RoleFromItems(items: map<string, string>, decode: string -> Option<JwtPayload>, now: int): (r: Option<string>)
    ensures StoredToken(items).None? ==> r.None?
    ensures StoredToken(items).Some? && !DecodeToken(StoredToken(items).value, decode, now).Decoded? ==> r.None?
    ensures StoredToken(items).Some? && DecodeToken(StoredToken(items).value, decode, now).Decoded? ==>
      r == RoleOfPayload(DecodeToken(StoredToken(items).value, decode, now).payload)
    ensures r.Some? ==> forall i :: 0 <= i < |r.value| ==> IsLowerAlpha(r.value[i])
  {
    match StoredToken(items)
    case None => None
    case Some(token) =>
      match DecodeToken(token, decode, now)
      case Decoded(p) => RoleOfPayload(p)
      case _ => None
  }

  /** `getUserRoleFromToken` in a browser: the token is read, decoded (which
      may remove it) and its role claim is sanitised. */
  method GetUserRoleFromToken(storage: LocalStorage, decode: string -> Option<JwtPayload>, now: int) returns (r: Option<string>)
    modifies storage
    ensures r == RoleFromItems(old(storage.items), decode, now)
    ensures storage.items ==
      if StoredToken(old(storage.items)).Some? && DecodeToken(StoredToken(old(storage.items)).value, decode, now).Expired?
      then old(storage.items) - {TokenKey} else old(storage.items)
  {
    var token := storage.GetItem(TokenKey);
    if token.None? || token.value == [] {
      return None;
    }
    var payload := DecodeJwtPayload(storage, token.value, decode, now);
    if payload.None? {
      return None;
    }
    r := RoleOfPayload(payload.value);
  }

  /** The user types of the notification pages. */
  datatype UserType = Etudiant | Parent | Enseignant | AdminSysteme | AdminPedagogique | AdminContenue
  {
    function Name(): string {
      match this
      case Etudiant => "etudiant"
      case Parent => "parent"
      case Enseignant => "enseignant"
      case AdminSysteme => "adminsysteme"
      case AdminPedagogique => "adminpedagogique"
      case AdminContenue => "admincontenue"
    }
  }

  /** `mapRoleToUserType`: a role naming a user type gives that type; any
      other role, and no role, gives `etudiant`. */
  function MapRoleToUserType(role: Option<string>): (t: UserType)
    ensures role.None? ==> t == Etudiant
    ensures t != Etudiant ==> role == Some(t.Name())
    ensures role.Some? && role.value != t.Name() ==> t == Etudiant
  {
    if role.None? then Etudiant
    else if role.value == "parent" then Parent
    else if role.value == "enseignant" then Enseignant
    else if role.value == "adminsysteme" then AdminSysteme
    else if role.value == "adminpedagogique" then AdminPedagogique
    else if role.value == "admincontenue" then AdminContenue
    else Etudiant
  }

  /** The mapping is the identity on the six names, which survive
      sanitising unchanged. */
  lemma UserTypeRoundTrip(t: UserType)
    ensures MapRoleToUserType(Some(t.Name())) == t
    ensures SanitizeRole(t.Name()) == t.Name()
  {
    SanitizeKeepsLowerAlpha(t.Name());
  }
}
