/**
 * The three role predicates that gate every view (`is_admin`, `is_terapeuta`,
 * `is_dono`), over the authenticated flag, the superuser flag and the names of
 * the groups the user belongs to, and the caller of a view: the user plus the
 * therapist profile linked to that user, if any (`request.user.terapeuta`).
 */
module Roles {
  import opened Wrappers

  datatype User = User(authenticated: bool, superuser: bool, groups: set<string>)

  /** A request's caller; `terapeuta` is the id of the Terapeuta row whose `usuario` is this user. */
  datatype Caller = Caller(user: User, terapeuta: Option<int>)

  const ADMINISTRATIVO := "Administrativo"
  const TERAPEUTAS := "Terapeutas"
  const FINANCEIRO := "Financeiro"
  const DONOS := "Donos"

  /** Admin covers the 'Administrativo' and the 'Donos' groups. */
  predicate IsAdmin(u: User) {
    u.authenticated && (u.superuser || ADMINISTRATIVO in u.groups || DONOS in u.groups)
  }

  predicate IsTerapeuta(u: User) {
    u.authenticated && (u.superuser || TERAPEUTAS in u.groups)
  }

  predicate IsDono(u: User) {
    u.authenticated && (u.superuser || DONOS in u.groups)
  }

  /** `agendamento.terapeuta.usuario == request.user`: the caller is the appointment's own therapist. */
  predicate IsOwnTherapist(c: Caller, terapeuta: int) {
    c.terapeuta == Some(terapeuta)
  }

  lemma UnauthenticatedHasNoRole(u: User)
    requires !u.authenticated
    ensures !IsAdmin(u) && !IsTerapeuta(u) && !IsDono(u)
  {
  }

  lemma SuperuserHasEveryRole(u: User)
    requires u.authenticated && u.superuser
    ensures IsAdmin(u) && IsTerapeuta(u) && IsDono(u)
  {
  }

  lemma DonoIsAdmin(u: User)
    requires IsDono(u)
    ensures IsAdmin(u)
  {
  }

  lemma TherapistOnly(u: User)
    requires u.authenticated && !u.superuser && u.groups == {TERAPEUTAS}
    ensures IsTerapeuta(u) && !IsAdmin(u) && !IsDono(u)
  {
  }

  lemma FinanceOrNoGroupHasNoRole(u: User)
    requires u.authenticated && !u.superuser && (u.groups == {FINANCEIRO} || u.groups == {})
    ensures !IsAdmin(u) && !IsTerapeuta(u) && !IsDono(u)
  {
  }
}
