/** The legacy `DossierViewSet`, whose visibility rule tests for the CLIENT
    role instead of testing for the staff roles. */
module DossierApi {
  import opened Wrappers
  import opened Domain
  import FolderApi

  /** A legacy dossier; only its client matters to the viewset. */
  datatype Dossier = Dossier(id: int, client: int)

  type Store = map<int, Dossier>

  /** `get_queryset`: a CLIENT sees their own dossiers, every other role,
      including roles outside `ROLES`, sees them all. */
  function Queryset(u: User, store: Store): (r: Store)
    ensures r.Keys <= store.Keys
    ensures u.role == ClientRole ==> forall k :: k in r <==> k in store && store[k].client == u.id
    ensures u.role != ClientRole ==> r == store
    ensures forall k :: k in r ==> r[k] == store[k]
  {
    if u.role == ClientRole then map k | k in store && store[k].client == u.id :: store[k]
    else store
  }

  /** Over a dossier and a folder stored under the same key for the same
      client, the legacy queryset and the folder queryset agree for the
      three declared roles; a role outside them sees the dossier but only
      a folder it owns. */
  lemma {:induction false} LegacyRuleAgainstFolderRule(u: User, dossiers: Store, folders: FolderApi.Store, k: int)
    requires k in dossiers && k in folders && dossiers[k].client == folders[k].client
    ensures u.role in [ClientRole, GestionnaireRole, AdminRole] ==>
      (k in Queryset(u, dossiers) <==> k in FolderApi.Queryset(u, folders))
    ensures u.role !in [ClientRole, GestionnaireRole, AdminRole] ==>
      k in Queryset(u, dossiers) && (k in FolderApi.Queryset(u, folders) <==> folders[k].client == u.id)
  {
    if u.role in [ClientRole, GestionnaireRole, AdminRole] {
      assert u.role == ClientRole || u.role == GestionnaireRole || u.role == AdminRole;
    }
  }

  /** Both querysets over the same rows, keyed alike: an unlisted role gets
      every dossier but only the folders it owns. */
  lemma UnlistedRoleSeesAllDossiers(u: User, dossiers: Store, folders: FolderApi.Store)
    requires u.role !in [ClientRole, GestionnaireRole, AdminRole]
    ensures Queryset(u, dossiers) == dossiers
    ensures forall k :: k in FolderApi.Queryset(u, folders) <==> k in folders && folders[k].client == u.id
  {
  }

  /** `perform_create`: the dossier's client is the requesting user.
      `claimedClient` is the client the request body names, if any;
      `save(client=...)` overrides it, so it never reaches the dossier. */
  function PerformCreate(u: User, id: int, claimedClient: Option<int>): (d: Dossier)
    ensures d.client == u.id && d.id == id
  {
    Dossier(id, u.id)
  }

  /** Whatever client a request claims, the new dossier is the same as
      for a request that claims none. */
  lemma ClaimedClientIgnored(u: User, id: int, claimed: int)
    ensures PerformCreate(u, id, Some(claimed)) == PerformCreate(u, id, None)
    ensures claimed != u.id ==> PerformCreate(u, id, Some(claimed)).client != claimed
  {
  }
}
