/** backend/app/modules/organizations/api.py: opening a branch. */
module Branches {
  import opened Prelude
  import opened Stock
  import opened Documents
  import opened Persistence

  const MAX_CODE: nat := 20

  /** Codes have 1 to 20 characters and are unique in the organization
      (uq_branch_code). */
  predicate CanOpen(codes: map<Id, string>, branch: Id, code: string) {
    branch !in codes && 1 <= |code| <= MAX_CODE && code !in codes.Values
  }

  function ApplyOpen(b: Books, branch: Id, code: string): Books {
    b.(codes := b.codes[branch := code])
  }

  datatype BranchError = BadCode | CodeTaken

  class BranchService {
    const db: Database

    constructor (db: Database)
      ensures this.db == db
    {
      this.db := db;
    }

    /** `id` is the row's generated key, so it is new. */
    method CreateBranch(id: Id, code: string) returns (r: Result<(), BranchError>)
      requires id !in db.codes
      modifies db`codes
      ensures r.Ok? <==> CanOpen(old(db.codes), id, code)
      ensures r.Ok? <==> 1 <= |code| <= 20 && forall other :: other in old(db.codes) ==> old(db.codes)[other] != code
      ensures r == Err(CodeTaken) <==>
              1 <= |code| <= 20 && exists other :: other in old(db.codes) && old(db.codes)[other] == code
      ensures r == Err(BadCode) <==> |code| == 0 || 20 < |code|
      ensures db.View() == if r.Ok? then ApplyOpen(old(db.View()), id, code) else old(db.View())
    {
      if |code| < 1 || MAX_CODE < |code| {
        return Err(BadCode);
      }
      if code in db.codes.Values {
        return Err(CodeTaken);
      }
      db.codes := db.codes[id := code];
      r := Ok(());
    }
  }
}
