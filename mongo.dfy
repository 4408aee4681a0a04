/** The MongoDB deployment of the Mongo filter: each collection of each
    database is the set of `fp` values of its documents, which the unique
    index on `fp` makes a set. */
module Mongo {

  /** How `insert_one` ends: the document is stored, or the unique index
      rejects it with a duplicate-key error. */
  datatype InsertOutcome = Inserted | DuplicateKey

  class MongoClient {
    var collections: map<(string, string), set<string>>

    constructor ()
      ensures collections == map[]
    {
      collections := map[];
    }

    /** The fingerprints stored in `db.collection`; a missing collection has none. */
    function Docs(db: string, collection: string): set<string>
      reads this
    {
      if (db, collection) in collections then collections[(db, collection)] else {}
    }

    /** `find_one({"fp": fp})`: whether a document with this fingerprint exists. */
    method FindOne(db: string, collection: string, fp: string) returns (found: bool)
      ensures found <==> fp in Docs(db, collection)
    {
      found := fp in Docs(db, collection);
    }

    /** `insert_one({"fp": fp})` under the unique index on `fp`. */
    method InsertOne(db: string, collection: string, fp: string) returns (outcome: InsertOutcome)
      modifies this
      ensures outcome == DuplicateKey <==> fp in old(Docs(db, collection))
      ensures outcome == DuplicateKey ==> collections == old(collections)
      ensures outcome == Inserted ==>
                collections == old(collections)[(db, collection) := old(Docs(db, collection)) + {fp}]
    {
      if fp in Docs(db, collection) {
        outcome := DuplicateKey;
      } else {
        outcome := Inserted;
        collections := collections[(db, collection) := Docs(db, collection) + {fp}];
      }
    }

    /** Documents that other processes sharing the collection insert between
        two round trips of one caller. */
    method ConcurrentInserts(db: string, collection: string, fps: set<string>)
      modifies this
      ensures collections == old(collections)[(db, collection) := old(Docs(db, collection)) + fps]
    {
      collections := collections[(db, collection) := Docs(db, collection) + fps];
    }

    /** Drop `db.collection` with its documents; nothing happens if it is missing. */
    method DropCollection(db: string, collection: string)
      modifies this
      ensures collections == old(collections) - {(db, collection)}
      ensures Docs(db, collection) == {}
    {
      collections := collections - {(db, collection)};
    }
  }
}
