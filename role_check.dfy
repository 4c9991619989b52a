/** The role and status gates that run after authentication. */
module RoleCheck {
  import opened Wrappers
  import opened Jwt

  /** A gate either calls `next` or answers with a status and message, never both. */
  datatype Gate = Pass | Deny(status: int, message: string)

  const NoCredentials: string := "인증 정보가 없습니다."
  const AdminRequired: string := "관리자 권한이 필요합니다."
  const NotActive: string := "승인되지 않은 계정이거나 비활성 상태입니다."

  /** `requireAdmin` over `req.user`. */
  function RequireAdmin(user: Option<Payload>): Gate {
    if user.None? then Deny(401, NoCredentials)
    else if user.value.role != "ADMIN" then Deny(403, AdminRequired)
    else Pass
  }

  /** `requireActive` over `req.user`. */
  function RequireActive(user: Option<Payload>): Gate {
    if user.None? then Deny(401, NoCredentials)
    else if user.value.status != "ACTIVE" then Deny(403, NotActive)
    else Pass
  }

  /** A missing user is answered 401 whatever else holds; a present one is never answered 401. */
  lemma {:induction false} MissingUserFirst(user: Option<Payload>)
    ensures user.None? ==> RequireAdmin(user) == Deny(401, NoCredentials) && RequireActive(user) == Deny(401, NoCredentials)
    ensures user.Some? ==> RequireAdmin(user) != Deny(401, NoCredentials) && RequireActive(user) != Deny(401, NoCredentials)
  {
  }

  /** Each gate passes exactly for a present user with the required role or status, and otherwise answers 401 or 403. */
  lemma {:induction false} GatesExactly(user: Option<Payload>)
    ensures RequireAdmin(user) == Pass <==> user.Some? && user.value.role == "ADMIN"
    ensures RequireActive(user) == Pass <==> user.Some? && user.value.status == "ACTIVE"
    ensures RequireAdmin(user).Deny? ==> RequireAdmin(user).status in {401, 403}
    ensures RequireActive(user).Deny? ==> RequireActive(user).status in {401, 403}
  {
  }

  /** The role gate looks only at the role: an inactive admin passes it and fails only the status gate. */
  lemma {:induction false} GatesIndependent(p: Payload)
    requires p.role == "ADMIN" && p.status == "PENDING"
    ensures RequireAdmin(Some(p)) == Pass
    ensures RequireActive(Some(p)) == Deny(403, NotActive)
  {
  }
}
