/** backend/app/modules/idempotency/service.py: one key row per finished request. */
module Idempotency {
  import opened Prelude
  import opened Persistence

  datatype IdempotencyError = DuplicateKey

  class IdempotencyService {
    const db: Database

    constructor (db: Database)
      ensures this.db == db
    {
      this.db := db;
    }

    method Find(key: string) returns (entity: Option<nat>)
      ensures entity == if key in db.keys then Some(db.keys[key]) else None
    {
      entity := if key in db.keys then Some(db.keys[key]) else None;
    }

    /** A key is unique per organization (uq_idempotency_key). */
    method Record(key: string, entity: nat) returns (r: Result<(), IdempotencyError>)
      modifies db`keys
      ensures r.Ok? <==> key !in old(db.keys)
      ensures db.keys == if r.Ok? then old(db.keys)[key := entity] else old(db.keys)
    {
      if key in db.keys {
        return Err(DuplicateKey);
      }
      db.keys := db.keys[key := entity];
      r := Ok(());
    }
  }
}
