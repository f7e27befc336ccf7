/** The repository calls the core makes on the accounts collection. */
module Repositories {
  import opened Wrappers
  import opened Entities
  import opened Storage
  import opened External

  /** `_accountsRepository.GetAsync(id)`: the account with that id, if any. */
  function FindAccount(accounts: Collection<AccountEntity>, id: ObjectId): (r: Fallible<Option<AccountEntity>>)
    ensures r.Faulted? <==> !accounts.reachable
    ensures r.Completed? && r.value.Some? ==> r.value.value in accounts.documents && r.value.value.id == id
    ensures r.Completed? && r.value.None? ==> forall a :: a in accounts.documents ==> a.id != id
  {
    FindFirst(accounts, (a: AccountEntity) => a.id == id)
  }

  /** The id text parses, the repository answers, the account exists and `check` accepts it. */
  predicate AccountPasses(env: Collaborators, accounts: Collection<AccountEntity>, idText: string, check: AccountEntity -> bool) {
    match env.tryParseObjectId(idText)
    case None => false
    case Some(id) =>
      match FindAccount(accounts, id)
      case Completed(Some(a)) => check(a)
      case _ => false
  }
}
