/** The index manager: a keyed store of chunks ("nodes") behind a query
    engine, with a persisted copy on disk, plus the conversion of JSON records
    into documents. The sentence-window chunker and the vector index are
    uninterpreted: the chunker is a function from documents and a window size
    to nodes, the index is the map from node id to node that its docstore
    holds, and the persisted directory is a ghost snapshot of that map. */
module Indexing {
  import opened Wrappers
  import opened Text
  import opened Values
  import opened Nodes

  /** A node postprocessor of the query engine. */
  datatype Postprocessor =
    | MetadataReplacement(targetMetadataKey: string)
    | SentenceTransformerRerank(topN: nat, model: string)

  /** A query engine over the nodes of an index, as `as_query_engine` builds it. */
  datatype QueryEngine = QueryEngine(
    nodes: map<string, TextNode>,
    similarityTopK: nat,
    postprocessors: seq<Postprocessor>,
    responseMode: string)

  /** The sentence-window engine: six candidates, the `window` metadata put in
      place of each sentence, then a cross-encoder rerank down to four. */
  function BuildEngine(store: map<string, TextNode>): (e: QueryEngine)
    ensures e.nodes == store
    ensures e.similarityTopK == 6 && e.responseMode == "no_text"
    ensures e.postprocessors == [MetadataReplacement("window"), SentenceTransformerRerank(4, "BAAI/bge-reranker-base")]
  {
    QueryEngine(store, 6, [MetadataReplacement("window"), SentenceTransformerRerank(4, "BAAI/bge-reranker-base")], "no_text")
  }

  /** `os.path.join(directory, name)`. */
  function PathJoin(directory: string, name: string): (r: string)
    ensures |name| > 0 && name[0] == '/' ==> r == name
    ensures EndsWith(r, name)
  {
    if |name| > 0 && name[0] == '/' then name
    else if directory == "" || EndsWith(directory, "/") then directory + name
    else directory + "/" + name
  }

  /** The map a docstore holds after the nodes are added one after another:
      a later node with the same id replaces an earlier one. */
  function NodeMap(nodes: seq<TextNode>): (m: map<string, TextNode>)
    ensures forall id :: id in m <==> exists k | 0 <= k < |nodes| :: nodes[k].id == id
  {
    if nodes == [] then map[]
    else
      var last := nodes[|nodes| - 1];
      var m := NodeMap(nodes[..|nodes| - 1]);
      assert forall k | 0 <= k < |nodes| - 1 :: nodes[..|nodes| - 1][k] == nodes[k];
      m[last.id := last]
  }

  /** Each id of `NodeMap(nodes)` holds the last node with that id. */
  lemma {:induction false} NodeMapLast(nodes: seq<TextNode>, k: nat)
    requires k < |nodes|
    requires forall j | k < j < |nodes| :: nodes[j].id != nodes[k].id
    ensures nodes[k].id in NodeMap(nodes) && NodeMap(nodes)[nodes[k].id] == nodes[k]
    decreases |nodes|
  {
    if k < |nodes| - 1 {
      var init := nodes[..|nodes| - 1];
      assert init[k] == nodes[k];
      NodeMapLast(init, k);
    }
  }

  /** Adding nodes keeps every stored id, adds every new node's id, and
      leaves untouched each entry whose id no new node carries. */
  lemma AddKeepsAndAdds(store: map<string, TextNode>, nodes: seq<TextNode>)
    ensures forall id | id in store :: id in store + NodeMap(nodes)
    ensures forall k | 0 <= k < |nodes| :: nodes[k].id in store + NodeMap(nodes)
    ensures forall id | id in store && (forall k | 0 <= k < |nodes| :: nodes[k].id != id) ::
      (store + NodeMap(nodes))[id] == store[id]
    ensures forall id :: id in store + NodeMap(nodes) <==>
      id in store || exists k | 0 <= k < |nodes| :: nodes[k].id == id
  {
  }

  /** The stored ids whose metadata carries exactly this `email_id` string. */
  function Matching(store: map<string, TextNode>, emailId: string): (ids: set<string>)
    ensures forall id :: id in ids <==> id in store && Get(store[id].metadata, "email_id") == Str(emailId)
  {
    set id | id in store && Get(store[id].metadata, "email_id") == Str(emailId)
  }

  /** A file of a data folder: its decoded JSON, or None when it is not valid
      JSON (or cannot be read). */
  type Files = map<string, Option<Value>>

  predicate IsJsonName(name: string) {
    EndsWith(name, ".json")
  }

  /** Newlines replaced by spaces, then surrounding whitespace removed. */
  function Clean(s: string): (r: string)
    ensures forall k | 0 <= k < |r| :: r[k] != '\n'
    ensures r == [] || (!IsPySpace(r[0]) && !IsPySpace(r[|r| - 1]))
  {
    var t := ReplaceNewlines(s);
    var r := Strip(t);
    assert r == [] || r == t[StripStart(t)..StripEnd(t)];
    r
  }

  /** The text of a question/answer record. */
  function QaText(question: string, answer: string): string {
    "Q: " + question + "\nA: " + answer
  }

  predicate HasQa(m: map<string, Value>) {
    "question" in m && "answer" in m
  }

  /** The text `load_json_documents` derives from a record's fields, or None
      when the fields have neither shape or hold a non-string. */
  function TolerantText(m: map<string, Value>): (t: Option<string>)
    ensures HasQa(m) ==> (t.Some? <==> m["question"].Str? && m["answer"].Str?)
    ensures HasQa(m) && t.Some? ==> t.value == QaText(Clean(m["question"].s), Clean(m["answer"].s))
    ensures !HasQa(m) ==> (t.Some? <==> "information" in m && m["information"].Str?)
    ensures !HasQa(m) && t.Some? ==> t.value == "information: " + Clean(m["information"].s)
  {
    if HasQa(m) then
      if m["question"].Str? && m["answer"].Str? then Some(QaText(Clean(m["question"].s), Clean(m["answer"].s)))
      else None
    else if "information" in m then
      if m["information"].Str? then Some("information: " + Clean(m["information"].s)) else None
    else None
  }

  /** The metadata every accepted record carries: exactly its id and timestamp. */
  function RecordMetadata(m: map<string, Value>): (meta: Metadata)
    requires "email_id" in m && "timestamp" in m
    ensures meta.Keys == {"email_id", "timestamp"}
    ensures meta["email_id"] == m["email_id"] && meta["timestamp"] == m["timestamp"]
  {
    map["email_id" := m["email_id"], "timestamp" := m["timestamp"]]
  }

  /** One file as `load_json_documents` reads it: None for invalid JSON, for
      anything but an object, for a record of neither shape and for a record
      without `email_id` or `timestamp`. */
  function LoadRecord(content: Option<Value>): (d: Option<Document>)
    ensures d.Some? <==>
      content.Some? && content.value.Obj? && TolerantText(content.value.fields).Some?
      && "email_id" in content.value.fields && "timestamp" in content.value.fields
    ensures d.Some? ==> d.value.metadata.Keys == {"email_id", "timestamp"}
    ensures d.Some? ==> d.value.metadata["email_id"] == content.value.fields["email_id"]
    ensures d.Some? ==> d.value.metadata["timestamp"] == content.value.fields["timestamp"]
  {
    match content
    case Some(Obj(m)) =>
      var text := TolerantText(m);
      if text.Some? && "email_id" in m && "timestamp" in m then Some(Document(text.value, RecordMetadata(m)))
      else None
    case _ => None
  }

  /** A record with both `question` and `answer` becomes a question/answer
      text even when it also has `information`. */
  lemma QuestionAnswerWins(m: map<string, Value>, q: string, a: string)
    requires "question" in m && "answer" in m && m["question"] == Str(q) && m["answer"] == Str(a)
    requires "email_id" in m && "timestamp" in m
    ensures LoadRecord(Some(Obj(m))).Some?
    ensures LoadRecord(Some(Obj(m))).value.text == QaText(Clean(q), Clean(a))
  {
  }

  /** A question/answer text of newline-free fields has its only newline
      between them. */
  lemma QaTextNewlines(q: string, a: string)
    requires forall k | 0 <= k < |q| :: q[k] != '\n'
    requires forall k | 0 <= k < |a| :: a[k] != '\n'
    ensures forall k | 0 <= k < |QaText(q, a)| :: QaText(q, a)[k] == '\n' <==> k == 3 + |q|
  {
    var t := QaText(q, a);
    forall k | 0 <= k < |t| ensures t[k] == '\n' <==> k == 3 + |q| {
      if k < 3 {
        assert t[k] == "Q: "[k];
      } else if k < 3 + |q| {
        assert t[k] == q[k - 3];
      } else if k == 3 + |q| {
        assert t[k] == '\n';
      } else if k < 7 + |q| {
        assert t[k] == "\nA: "[k - 3 - |q|];
      } else {
        assert t[k] == a[k - 7 - |q|];
      }
    }
  }

  /** In a loaded question/answer text the one newline is the one between
      the two fields: the cleaned fields keep none of their own. */
  lemma QaTextOneNewline(m: map<string, Value>)
    requires LoadRecord(Some(Obj(m))).Some? && HasQa(m)
    ensures var t := LoadRecord(Some(Obj(m))).value.text;
      var q := Clean(m["question"].s);
      forall k | 0 <= k < |t| :: t[k] == '\n' <==> k == 3 + |q|
  {
    var q := Clean(m["question"].s);
    var a := Clean(m["answer"].s);
    assert LoadRecord(Some(Obj(m))).value.text == QaText(q, a);
    QaTextNewlines(q, a);
  }

  /** One file as `rebuild_index` reads it: an object with `question`,
      `answer`, `email_id` and `timestamp`, the fields rendered with `str`
      and not normalised; anything else is skipped. */
  function RebuildRecord(py: Builtins, content: Option<Value>): (d: Option<Document>)
    ensures d.Some? <==>
      content.Some? && content.value.Obj? && HasQa(content.value.fields)
      && "email_id" in content.value.fields && "timestamp" in content.value.fields
    ensures d.Some? ==> d.value.metadata.Keys == {"email_id", "timestamp"}
    ensures d.Some? ==>
      d.value.text == QaText(PyStr(py, content.value.fields["question"]), PyStr(py, content.value.fields["answer"]))
  {
    match content
    case Some(Obj(m)) =>
      if HasQa(m) && "email_id" in m && "timestamp" in m then
        Some(Document(QaText(PyStr(py, m["question"]), PyStr(py, m["answer"])), RecordMetadata(m)))
      else None
    case _ => None
  }

  /** A record with only `information` is loaded by the tolerant reader but
      dropped by the rebuild. */
  lemma InformationOnlyDroppedByRebuild(py: Builtins, m: map<string, Value>, info: string)
    requires "question" !in m && "information" in m && m["information"] == Str(info)
    requires "email_id" in m && "timestamp" in m
    ensures LoadRecord(Some(Obj(m))).Some?
    ensures RebuildRecord(py, Some(Obj(m))).None?
  {
  }

  /** When both fields are strings that need no cleaning, the two readers
      produce the same document. */
  lemma {:induction false} ReadersAgree(py: Builtins, m: map<string, Value>, q: string, a: string)
    requires "question" in m && "answer" in m && m["question"] == Str(q) && m["answer"] == Str(a)
    requires "email_id" in m && "timestamp" in m
    requires forall k | 0 <= k < |q| :: q[k] != '\n'
    requires forall k | 0 <= k < |a| :: a[k] != '\n'
    requires q == [] || (!IsPySpace(q[0]) && !IsPySpace(q[|q| - 1]))
    requires a == [] || (!IsPySpace(a[0]) && !IsPySpace(a[|a| - 1]))
    ensures LoadRecord(Some(Obj(m))) == RebuildRecord(py, Some(Obj(m)))
  {
    assert ReplaceNewlines(q) == q;
    assert ReplaceNewlines(a) == a;
    StripNoSurroundingSpace(q);
    StripNoSurroundingSpace(a);
  }

  /** The document a listed file yields in `load_json_documents`. */
  function Loaded(files: Files, name: string): Option<Document> {
    if IsJsonName(name) && name in files then LoadRecord(files[name]) else None
  }

  /** `load_json_documents` over a listing: the documents in listing order
      and the files moved to the destination. A moved file is gone from the
      source when a later listing entry names it again. */
  function LoadFolder(files: Files, listing: seq<string>): (r: (seq<Document>, Files))
    decreases |listing|
  {
    if listing == [] then ([], map[])
    else
      var name := listing[0];
      var d := Loaded(files, name);
      if d.Some? then
        var rest := LoadFolder(files - {name}, listing[1..]);
        ([d.value] + rest.0, rest.1[name := files[name]])
      else LoadFolder(files, listing[1..])
  }

  /** `LoadFolder` unfolded at position `i` of the listing. */
  lemma LoadFolderStep(files: Files, listing: seq<string>, i: nat)
    requires i < |listing|
    ensures LoadFolder(files, listing[i..]) ==
      if Loaded(files, listing[i]).Some? then
        var rest := LoadFolder(files - {listing[i]}, listing[i + 1..]);
        ([Loaded(files, listing[i]).value] + rest.0, rest.1[listing[i] := files[listing[i]]])
      else LoadFolder(files, listing[i + 1..])
  {
    assert listing[i..][0] == listing[i];
    assert listing[i..][1..] == listing[i + 1..];
  }

  /** Every moved file is a listed JSON file the tolerant reader accepts,
      moved with its content. */
  lemma {:induction false} LoadFolderMovedFrom(files: Files, listing: seq<string>)
    ensures forall name | name in LoadFolder(files, listing).1 ::
      name in files && name in listing && Loaded(files, name).Some? && LoadFolder(files, listing).1[name] == files[name]
    decreases |listing|
  {
    if listing != [] {
      var name := listing[0];
      if Loaded(files, name).Some? {
        LoadFolderMovedFrom(files - {name}, listing[1..]);
      } else {
        LoadFolderMovedFrom(files, listing[1..]);
      }
    }
  }

  /** Every listed JSON file the tolerant reader accepts is moved. */
  lemma {:induction false} LoadFolderMovesAccepted(files: Files, listing: seq<string>)
    ensures forall k | 0 <= k < |listing| && Loaded(files, listing[k]).Some? :: listing[k] in LoadFolder(files, listing).1
    decreases |listing|
  {
    if listing != [] {
      var name := listing[0];
      if Loaded(files, name).Some? {
        LoadFolderMovesAccepted(files - {name}, listing[1..]);
        forall k | 0 < k < |listing| && Loaded(files, listing[k]).Some? && listing[k] != name
          ensures listing[k] in LoadFolder(files, listing).1
        {
          assert listing[1..][k - 1] == listing[k];
          assert Loaded(files - {name}, listing[k]).Some?;
        }
      } else {
        LoadFolderMovesAccepted(files, listing[1..]);
        forall k | 0 < k < |listing| && Loaded(files, listing[k]).Some?
          ensures listing[k] in LoadFolder(files, listing).1
        {
          assert listing[1..][k - 1] == listing[k];
        }
      }
    }
  }

  /** The files of a folder that `load_json_documents` accepts, with their
      contents. */
  function AcceptedFiles(files: Files): (r: Files)
    ensures forall name :: name in r <==> name in files && Loaded(files, name).Some?
    ensures forall name | name in r :: r[name] == files[name]
  {
    map name | name in files && Loaded(files, name).Some? :: files[name]
  }

  /** Over a listing of the whole folder, as `os.listdir` gives, exactly the
      accepted files are moved, each with its content. */
  lemma LoadWholeFolder(files: Files, listing: seq<string>)
    requires forall name :: name in listing <==> name in files
    ensures LoadFolder(files, listing).1 == AcceptedFiles(files)
  {
    var moved := LoadFolder(files, listing).1;
    LoadFolderMovedFrom(files, listing);
    LoadFolderMovesAccepted(files, listing);
    forall name | name in AcceptedFiles(files) ensures name in moved {
      var k :| 0 <= k < |listing| && listing[k] == name;
    }
  }

  /** Every loaded document carries exactly `email_id` and `timestamp`. */
  lemma {:induction false} LoadFolderMetadata(files: Files, listing: seq<string>)
    ensures forall k | 0 <= k < |LoadFolder(files, listing).0| ::
      LoadFolder(files, listing).0[k].metadata.Keys == {"email_id", "timestamp"}
    decreases |listing|
  {
    if listing != [] {
      var name := listing[0];
      if Loaded(files, name).Some? {
        LoadFolderMetadata(files - {name}, listing[1..]);
      } else {
        LoadFolderMetadata(files, listing[1..]);
      }
    }
  }

  /** `rebuild_index`'s documents: the listed JSON files the strict reader
      accepts, in listing order. */
  function RebuildFolder(py: Builtins, files: Files, listing: seq<string>): (docs: seq<Document>)
    ensures |docs| <= |listing|
  {
    if listing == [] then []
    else
      var d := if IsJsonName(listing[0]) && listing[0] in files then RebuildRecord(py, files[listing[0]]) else None;
      (if d.Some? then [d.value] else []) + RebuildFolder(py, files, listing[1..])
  }

  /** Rebuilt documents are question/answer documents of exactly the two
      metadata keys. */
  lemma {:induction false} RebuildFolderDocuments(py: Builtins, files: Files, listing: seq<string>)
    ensures forall k | 0 <= k < |RebuildFolder(py, files, listing)| ::
      RebuildFolder(py, files, listing)[k].metadata.Keys == {"email_id", "timestamp"}
      && OccursAt(RebuildFolder(py, files, listing)[k].text, 0, "Q: ")
  {
    if listing != [] {
      RebuildFolderDocuments(py, files, listing[1..]);
    }
  }

  lemma UpdateThenUnion<K, V>(m: map<K, V>, n: map<K, V>, k: K, v: V)
    requires k !in n
    ensures m[k := v] + n == m + n[k := v]
  {
  }

  lemma UnionThenUpdate<K, V>(m: map<K, V>, n: map<K, V>, k: K, v: V)
    ensures (m + n)[k := v] == m + n[k := v]
  {
  }

  lemma RemoveOneMore<K, V>(files: map<K, V>, moved: map<K, V>, k: K, v: V)
    ensures files - moved.Keys - {k} == files - moved[k := v].Keys
  {
  }

  /** One iteration of `load_json_documents` keeps the split of the whole
      result into what is done and what `LoadFolder` still yields. */
  lemma LoadStep(listing: seq<string>, i: nat, remaining: Files, moved: Files,
                 docs: seq<Document>, total: (seq<Document>, Files))
    requires i < |listing|
    requires docs + LoadFolder(remaining, listing[i..]).0 == total.0
    requires moved + LoadFolder(remaining, listing[i..]).1 == total.1
    ensures Loaded(remaining, listing[i]).Some? ==>
      var name := listing[i];
      && (docs + [Loaded(remaining, name).value]) + LoadFolder(remaining - {name}, listing[i + 1..]).0 == total.0
      && moved[name := remaining[name]] + LoadFolder(remaining - {name}, listing[i + 1..]).1 == total.1
    ensures Loaded(remaining, listing[i]).None? ==>
      && docs + LoadFolder(remaining, listing[i + 1..]).0 == total.0
      && moved + LoadFolder(remaining, listing[i + 1..]).1 == total.1
  {
    LoadFolderStep(remaining, listing, i);
    var name := listing[i];
    if Loaded(remaining, name).Some? {
      var rest := LoadFolder(remaining - {name}, listing[i + 1..]);
      LoadFolderMovedFrom(remaining - {name}, listing[i + 1..]);
      assert name !in rest.1;
      UpdateThenUnion(moved, rest.1, name, remaining[name]);
      assert docs + ([Loaded(remaining, name).value] + rest.0) == (docs + [Loaded(remaining, name).value]) + rest.0;
    }
  }

  /** The loop of `rebuild_index` over the listing of the data folder. */
  method RebuildDocuments(py: Builtins, files: Files, listing: seq<string>) returns (documents: seq<Document>)
    ensures documents == RebuildFolder(py, files, listing)
  {
    documents := [];
    var rest := listing;
    while rest != []
      invariant documents + RebuildFolder(py, files, rest) == RebuildFolder(py, files, listing)
      decreases |rest|
    {
      var name := rest[0];
      var d := if IsJsonName(name) && name in files then RebuildRecord(py, files[name]) else None;
      if d.Some? {
        assert documents + ([d.value] + RebuildFolder(py, files, rest[1..])) == (documents + [d.value]) + RebuildFolder(py, files, rest[1..]);
        documents := documents + [d.value];
      }
      rest := rest[1..];
    }
  }

  /** A data folder on disk: file name to decoded content. */
  class Folder {
    var files: Files

    constructor (files: Files)
      ensures this.files == files
    {
      this.files := files;
    }
  }

  class IndexManager {
    const indexName: string
    const indexPath: string
    const windowSize: int
    /** The sentence-window chunker, uninterpreted. */
    const chunk: (seq<Document>, int) -> seq<TextNode>
    /** The docstore of the vector index. */
    var store: map<string, TextNode>
    var engine: QueryEngine
    /** What the index directory holds. */
    ghost var persisted: map<string, TextNode>

    ghost predicate Valid()
      reads this
    {
      persisted == store && engine == BuildEngine(store)
    }

    /** `_create_or_load_index`: `existing` is the store found in the index
        directory, None when the directory does not exist. */
    constructor (indexName: string, indexDir: string, windowSize: int,
                 chunk: (seq<Document>, int) -> seq<TextNode>, existing: Option<map<string, TextNode>>)
      ensures Valid()
      ensures this.indexName == indexName && indexPath == PathJoin(indexDir, indexName)
      ensures this.windowSize == windowSize && this.chunk == chunk
      ensures store == if existing.Some? then existing.value else map[]
    {
      this.indexName := indexName;
      this.indexPath := PathJoin(indexDir, indexName);
      this.windowSize := windowSize;
      this.chunk := chunk;
      var s := if existing.Some? then existing.value else map[];
      store := s;
      persisted := s;
      engine := BuildEngine(s);
    }

    /** `add_documents`: chunk, insert, persist, rebuild the engine. */
    method AddDocuments(docs: seq<Document>)
      modifies this
      ensures Valid()
      ensures store == old(store) + NodeMap(chunk(docs, windowSize))
    {
      store := store + NodeMap(chunk(docs, windowSize));
      persisted := store;
      engine := BuildEngine(store);
    }

    /** `remove_by_email_id`: delete every entry whose `email_id` equals the
        given string and return how many there were. With none, nothing is
        persisted and the engine is not rebuilt. */
    method RemoveByEmailId(emailId: string) returns (count: nat)
      requires Valid()
      modifies this
      ensures Valid()
      ensures count == |Matching(old(store), emailId)|
      ensures store == old(store) - Matching(old(store), emailId)
      ensures Matching(store, emailId) == {}
      ensures count == 0 ==> store == old(store) && engine == old(engine)
    {
      var toRemove := Matching(store, emailId);
      if |toRemove| == 0 {
        return 0;
      }
      ghost var all := toRemove;
      count := |toRemove|;
      while toRemove != {}
        invariant toRemove <= all
        invariant store == old(store) - (all - toRemove)
        decreases |toRemove|
      {
        var id :| id in toRemove;
        store := store - {id};
        toRemove := toRemove - {id};
      }
      persisted := store;
      engine := BuildEngine(store);
    }

    /** `list_documents`: each stored id with its metadata. */
    function ListDocuments(): (r: map<string, Metadata>)
      reads this
      ensures r.Keys == store.Keys
      ensures forall id | id in r :: r[id] == store[id].metadata
    {
      map id | id in store :: store[id].metadata
    }

    /** `load_json_documents`: read the files of `source` in the order of
        its listing, move the accepted ones to `destination`, return their
        documents. */
    method LoadJsonDocuments(source: Folder, destination: Folder, listing: seq<string>) returns (docs: seq<Document>)
      requires forall name :: name in listing <==> name in source.files
      modifies source, destination
      ensures docs == LoadFolder(old(source.files), listing).0
      ensures source != destination ==>
        source.files == old(source.files) - AcceptedFiles(old(source.files)).Keys
        && destination.files == old(destination.files) + AcceptedFiles(old(source.files))
      ensures source == destination ==> source.files == old(source.files)
    {
      docs := [];
      ghost var total := LoadFolder(old(source.files), listing);
      ghost var moved: Files := map[];
      var remaining := source.files;
      for i := 0 to |listing|
        invariant docs + LoadFolder(remaining, listing[i..]).0 == total.0
        invariant moved + LoadFolder(remaining, listing[i..]).1 == total.1
        invariant remaining == old(source.files) - moved.Keys
        invariant source != destination ==> source.files == remaining && destination.files == old(destination.files) + moved
        invariant source == destination ==> source.files == old(source.files)
      {
        var name := listing[i];
        LoadStep(listing, i, remaining, moved, docs, total);
        var d := Loaded(remaining, name);
        if d.Some? {
          var content := remaining[name];
          UnionThenUpdate(old(destination.files), moved, name, content);
          RemoveOneMore(old(source.files), moved, name, content);
          docs := docs + [d.value];
          if source != destination {
            source.files := source.files - {name};
            destination.files := destination.files[name := content];
          }
          moved := moved[name := content];
          remaining := remaining - {name};
        }
      }
      assert listing[|listing|..] == [];
      assert moved + map[] == moved;
      LoadWholeFolder(old(source.files), listing);
      assert moved == AcceptedFiles(old(source.files));
    }

    /** `add_jsons_to_index`: the accepted files move to `destination`;
        with no accepted document the store is left as it is. */
    method AddJsonsToIndex(source: Folder, destination: Folder, listing: seq<string>)
      requires Valid()
      requires forall name :: name in listing <==> name in source.files
      modifies this, source, destination
      ensures Valid()
      ensures var docs := LoadFolder(old(source.files), listing).0;
        store == if docs == [] then old(store) else old(store) + NodeMap(chunk(docs, windowSize))
      ensures source != destination ==>
        source.files == old(source.files) - AcceptedFiles(old(source.files)).Keys
        && destination.files == old(destination.files) + AcceptedFiles(old(source.files))
      ensures source == destination ==> source.files == old(source.files)
    {
      var docs := LoadJsonDocuments(source, destination, listing);
      if docs == [] {
        return;
      }
      AddDocuments(docs);
    }

    /** `rebuild_index`: empty the index, then add the question/answer
        records of the folder; the folder itself is only read. */
    method RebuildIndex(py: Builtins, folder: Folder, listing: seq<string>)
      requires forall name :: name in listing <==> name in folder.files
      modifies this
      ensures Valid()
      ensures var docs := RebuildFolder(py, folder.files, listing);
        store == if docs == [] then map[] else NodeMap(chunk(docs, windowSize))
    {
      var files := folder.files;
      store := map[];
      persisted := store;
      var documents := RebuildDocuments(py, files, listing);
      if documents != [] {
        AddDocuments(documents);
        assert map[] + NodeMap(chunk(documents, windowSize)) == NodeMap(chunk(documents, windowSize));
      }
      engine := BuildEngine(store);
    }
  }
}
