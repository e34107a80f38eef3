/** The document database as the contexts see it: each read either returns
    documents or throws, and each write either succeeds or throws. */
module Firestore {

  datatype Fetch<+T> = Fetched(docs: seq<T>) | FetchFailed
}
