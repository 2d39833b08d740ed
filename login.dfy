/** The decision of the login handler `POST /api/auth/login`. The account
    table is a map from username to account (usernames are unique and the
    lookup is an exact match); `compare` stands for `bcrypt.compare(password,
    hash)` and `sign` for `jwt.sign(claims, secret, {expiresIn: "24h"})`. */
module CredentialGate {
  import opened JsValues
  import opened Wire

  const MsgCredentialsRequired: string := "사용자명과 비밀번호를 입력해주세요."
  const MsgBadCredentials: string := "잘못된 아이디 또는 비밀번호 입니다."

  datatype Account = Account(id: nat, username: string, passwordHash: string, email: string, company: Option<string>)

  datatype LoginBody = LoginBody(username: Field<string>, password: Field<string>)

  /** The claims a session token is signed over: exactly id, username and company. */
  function ClaimsOf(a: Account): Claims {
    Claims(a.id, a.username, a.company)
  }

  /** The account summary of the login response: everything but the password. */
  function SummaryOf(a: Account): UserSummary {
    UserSummary(a.id, a.username, a.email, a.company)
  }

  /** The login handler's answer. */
  function Login(body: LoginBody, accounts: map<string, Account>,
                 compare: (string, string) -> bool, sign: Claims -> string): (r: Response)
    ensures !(TruthyText(body.username) && TruthyText(body.password)) ==>
              r == Response(400, Message(MsgCredentialsRequired))
    ensures TruthyText(body.username) && TruthyText(body.password) ==>
              var u, p := body.username.value, body.password.value;
              if u in accounts && compare(p, accounts[u].passwordHash) then
                r == Response(200, Session(sign(ClaimsOf(accounts[u])), SummaryOf(accounts[u])))
              else
                r == Response(400, Message(MsgBadCredentials))
    ensures r.status == 200 || r.status == 400
  {
    if !TruthyText(body.username) || !TruthyText(body.password) then
      Response(400, Message(MsgCredentialsRequired))
    else
      var user := if body.username.value in accounts then Some(accounts[body.username.value]) else None;
      match user
      case None => Response(400, Message(MsgBadCredentials))
      case Some(account) =>
        if !compare(body.password.value, account.passwordHash) then
          Response(400, Message(MsgBadCredentials))
        else
          Response(200, Session(sign(ClaimsOf(account)), SummaryOf(account)))
  }

  /** An unknown username and a wrong password for an existing one get the
      same response, so a client cannot tell which usernames exist. */
  lemma UnknownUserLooksLikeWrongPassword(body: LoginBody, accounts: map<string, Account>,
                                          account: Account,
                                          compare: (string, string) -> bool, sign: Claims -> string)
    requires TruthyText(body.username) && TruthyText(body.password)
    requires !compare(body.password.value, account.passwordHash)
    ensures Login(body, accounts - {body.username.value}, compare, sign)
         == Login(body, accounts[body.username.value := account], compare, sign)
  {
  }

  /** A successful login signs a token over the account's own tenant. */
  lemma LoginCarriesTenant(body: LoginBody, accounts: map<string, Account>,
                           compare: (string, string) -> bool, sign: Claims -> string)
    requires Login(body, accounts, compare, sign).status == 200
    ensures body.username.Given? && body.username.value in accounts
    ensures Login(body, accounts, compare, sign).body.token
         == sign(Claims(accounts[body.username.value].id, accounts[body.username.value].username,
                        accounts[body.username.value].company))
  {
  }
}
