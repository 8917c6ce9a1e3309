/** Authorization rules for a Work (app/policies/work_policy.rb).

    A policy is asked about one user and one work record. The record is
    abstracted to the handful of facts the rules read: who deposited it,
    who (if anyone) deposited it as a proxy, who has been granted edit
    access, whether a draft version exists, whether a published version
    exists, and whether it is open access. */
module WorkPolicy {
  import opened Wrappers

  type ActorId = nat
  type UserId = nat

  /** The signed-in user. A guest-like user has no actor. */
  datatype User = User(id: UserId, actor: Option<ActorId>, admin: bool)

  datatype WorkRecord = WorkRecord(
    depositor: ActorId,
    proxyDepositor: Option<ActorId>,
    usersWithEditAccess: set<UserId>, // users with edit access, directly or through a group
    hasDraftVersion: bool,            // record.draft_version.present?
    hasLatestPublishedVersion: bool,  // record.latest_published_version.present?
    openAccess: bool)

  /** record.edit_access?(user) */
  function EditAccess(u: User, w: WorkRecord): (b: bool)
    ensures b <==> u.id in w.usersWithEditAccess
  {
    u.id in w.usersWithEditAccess
  }

  /** The user's actor deposited the work. */
  function Owner(u: User, w: WorkRecord): (b: bool)
    ensures b ==> u.actor.Some?
    ensures b <==> u.actor == Some(w.depositor)
  {
    Some(w.depositor) == u.actor
  }

  /** The user's actor is the work's proxy depositor; never true when the
      work has no proxy depositor, even for a user without an actor. */
  function Proxy(u: User, w: WorkRecord): (b: bool)
    ensures w.proxyDepositor.None? ==> !b
    ensures b <==> w.proxyDepositor.Some? && w.proxyDepositor == u.actor
  {
    if w.proxyDepositor.None? then false
    else w.proxyDepositor == u.actor
  }

  function Published(w: WorkRecord): (b: bool)
    ensures b <==> w.hasLatestPublishedVersion
  {
    w.hasLatestPublishedVersion
  }

  /** owner, proxy, explicit edit access or admin */
  function Editable(u: User, w: WorkRecord): (b: bool)
    ensures u.admin ==> b
    ensures b <==> (u.actor == Some(w.depositor)
                    || (w.proxyDepositor.Some? && w.proxyDepositor == u.actor)
                    || u.id in w.usersWithEditAccess
                    || u.admin)
  {
    Owner(u, w) || Proxy(u, w) || EditAccess(u, w) || u.admin
  }

  function Show(u: User, w: WorkRecord): (b: bool)
    ensures b
  {
    true
  }

  function Edit(u: User, w: WorkRecord): (b: bool)
    ensures b <==> Editable(u, w)
  {
    Editable(u, w)
  }

  /** update? is an alias of edit? */
  function Update(u: User, w: WorkRecord): (b: bool)
    ensures b == Edit(u, w)
  {
    Edit(u, w)
  }

  /** No new version while a draft one already exists. */
  function CreateVersion(u: User, w: WorkRecord): (b: bool)
    ensures b ==> Edit(u, w)
    ensures w.hasDraftVersion ==> !b
    ensures b <==> Editable(u, w) && !w.hasDraftVersion
  {
    Editable(u, w) && !w.hasDraftVersion
  }

  /** A DOI may only be minted for a work with a published version. */
  function MintDoi(u: User, w: WorkRecord): (b: bool)
    ensures b ==> Edit(u, w)
    ensures !w.hasLatestPublishedVersion ==> !b
    ensures b <==> w.hasLatestPublishedVersion && Editable(u, w)
  {
    Published(w) && Editable(u, w)
  }

  function OpenAccess(w: WorkRecord): (b: bool)
    ensures b <==> w.openAccess
  {
    w.openAccess
  }

  /** Admins may always change visibility; anyone else needs edit rights,
      and loses the right once the work is both published and open access. */
  function EditVisibility(u: User, w: WorkRecord): (b: bool)
    ensures u.admin ==> b
    ensures !u.admin ==> (b <==> Editable(u, w) && !(w.hasLatestPublishedVersion && w.openAccess))
  {
    if u.admin then true
    else (Editable(u, w) && !Published(w)) || (Editable(u, w) && !OpenAccess(w))
  }

  /** Every permission other than show? is granted only to editors. */
  lemma PermissionsImplyEdit(u: User, w: WorkRecord)
    ensures CreateVersion(u, w) ==> Edit(u, w)
    ensures MintDoi(u, w) ==> Edit(u, w)
    ensures EditVisibility(u, w) ==> Edit(u, w)
  {
  }

  /** The nil guard in proxy? matters: comparing a missing proxy depositor
      with a user that has no actor would otherwise grant edit rights. */
  lemma ProxyGuardExcludesActorlessUsers(w: WorkRecord)
    requires w.proxyDepositor.None?
    ensures forall guest: User | guest.actor.None? ::
              w.proxyDepositor == guest.actor && !Proxy(guest, w)
  {
  }
}
