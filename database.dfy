/**
 * MyDatabase (utils/database.py): a table of documents with six text columns, kept as a
 * pandas DataFrame whose rows are modelled here as a sequence in row order. Every change
 * is followed by a CSV write of the whole table; the write is not modelled.
 */
module Database {
  import opened Wrappers

  datatype Row = Row(docName: string, category: string, keywords: string,
                     docPath: string, summaryPath: string, infoPath: string)

  /** df[df['doc_name'] == name]: the rows for one document, in table order. */
  function Named(rows: seq<Row>, name: string): (r: seq<Row>)
    ensures |r| <= |rows|
    ensures forall x :: x in r <==> x in rows && x.docName == name
  {
    if rows == [] then []
    else Named(rows[..|rows| - 1], name) + (if rows[|rows| - 1].docName == name then [rows[|rows| - 1]] else [])
  }

  /** df[df['doc_name'] != name]: every other row, in table order. */
  function Unnamed(rows: seq<Row>, name: string): (r: seq<Row>)
    ensures |r| <= |rows|
    ensures forall x :: x in r <==> x in rows && x.docName != name
  {
    if rows == [] then []
    else Unnamed(rows[..|rows| - 1], name) + (if rows[|rows| - 1].docName != name then [rows[|rows| - 1]] else [])
  }

  /** Each row of the document extends the selection of the rows before it by itself, so the selection keeps table order. */
  lemma {:induction false} NamedSpec(rows: seq<Row>, name: string)
    ensures forall i :: 0 <= i < |rows| && rows[i].docName == name ==> Named(rows[..i], name) + [rows[i]] == Named(rows[..i + 1], name)
  {
    if rows != [] {
      var n := |rows| - 1;
      NamedSpec(rows[..n], name);
      assert rows == rows[..n] + [rows[n]];
      forall i | 0 <= i < |rows| && rows[i].docName == name
        ensures Named(rows[..i], name) + [rows[i]] == Named(rows[..i + 1], name)
      {
        assert rows[..i + 1][..i] == rows[..i];
      }
    }
  }

  /** The first row of a document is its first occurrence in the table. */
  lemma {:induction false} NamedFirst(rows: seq<Row>, name: string, i: nat)
    requires i < |rows| && rows[i].docName == name
    requires forall j :: 0 <= j < i ==> rows[j].docName != name
    ensures Named(rows, name) != [] && Named(rows, name)[0] == rows[i]
  {
    var n := |rows| - 1;
    if n == i {
      NamedNone(rows[..n], name);
    } else {
      NamedFirst(rows[..n], name, i);
    }
  }

  /** A table without the document selects nothing for it. */
  lemma {:induction false} NamedNone(rows: seq<Row>, name: string)
    requires forall j :: 0 <= j < |rows| ==> rows[j].docName != name
    ensures Named(rows, name) == []
  {
    if rows != [] {
      NamedNone(rows[..|rows| - 1], name);
    }
  }

  /** Appending a row adds it to its own document's selection and to no other. */
  lemma NamedAppend(rows: seq<Row>, x: Row, name: string)
    ensures Named(rows + [x], name) == Named(rows, name) + (if x.docName == name then [x] else [])
  {
    assert (rows + [x])[..|rows|] == rows;
  }

  /** After removing a document no row of it is left. */
  lemma {:induction false} UnnamedRemoves(rows: seq<Row>, name: string)
    ensures Named(Unnamed(rows, name), name) == []
  {
    if rows != [] {
      var n := |rows| - 1;
      UnnamedRemoves(rows[..n], name);
      var u := Unnamed(rows[..n], name);
      if rows[n].docName != name {
        assert Unnamed(rows, name) == u + [rows[n]];
        NamedAppend(u, rows[n], name);
      } else {
        assert Unnamed(rows, name) == u;
      }
    }
  }

  /** Removing a document leaves every other document's rows as they were, in order. */
  lemma {:induction false} UnnamedKeepsOthers(rows: seq<Row>, name: string, other: string)
    requires other != name
    ensures Named(Unnamed(rows, name), other) == Named(rows, other)
  {
    if rows != [] {
      var n := |rows| - 1;
      UnnamedKeepsOthers(rows[..n], name, other);
      var u := Unnamed(rows[..n], name);
      if rows[n].docName != name {
        assert Unnamed(rows, name) == u + [rows[n]];
        NamedAppend(u, rows[n], other);
      } else {
        assert Unnamed(rows, name) == u;
        assert Named(rows, other) == Named(rows[..n], other);
      }
    }
  }

  class MyDatabase {
    const userDir: string
    var rows: seq<Row>

    /** __init__ sets db_df to None and then calls load_db, which therefore always creates an empty table. */
    constructor (userDir: string)
      ensures this.userDir == userDir && rows == []
    {
      this.userDir := userDir;
      rows := [];
    }

    /** load_db on a live object: db_df is set, so the table is read back from the CSV file (`persisted`). */
    method LoadDb(persisted: seq<Row>)
      modifies this
      ensures rows == persisted
    {
      rows := persisted;
    }

    /** update_doc_info: one row appended at the end; an older row for the same document stays. */
    method UpdateDocInfo(docName: string, category: string, keywords: string,
                         docPath: string, summaryPath: string, infoPath: string)
      modifies this
      ensures rows == old(rows) + [Row(docName, category, keywords, docPath, summaryPath, infoPath)]
    {
      rows := rows + [Row(docName, category, keywords, docPath, summaryPath, infoPath)];
    }

    /** get_info_path: the info path of the document's first row; `.values[0]` raises when there is none. */
    function GetInfoPath(fileName: string): (r: Option<string>)
      reads this
      ensures r.None? <==> forall i :: 0 <= i < |rows| ==> rows[i].docName != fileName
      ensures forall i :: (0 <= i < |rows| && rows[i].docName == fileName &&
                            (forall j :: 0 <= j < i ==> rows[j].docName != fileName)) ==> r == Some(rows[i].infoPath)
    {
      FirstRowFacts(rows, fileName);
      var matches := Named(rows, fileName);
      if matches == [] then None else Some(matches[0].infoPath)
    }

    /** get_summary_path: the summary path of the document's first row, likewise. */
    function GetSummaryPath(fileName: string): (r: Option<string>)
      reads this
      ensures r.None? <==> forall i :: 0 <= i < |rows| ==> rows[i].docName != fileName
      ensures forall i :: (0 <= i < |rows| && rows[i].docName == fileName &&
                            (forall j :: 0 <= j < i ==> rows[j].docName != fileName)) ==> r == Some(rows[i].summaryPath)
    {
      FirstRowFacts(rows, fileName);
      var matches := Named(rows, fileName);
      if matches == [] then None else Some(matches[0].summaryPath)
    }

    /** delete_doc_info: every row of the document goes, the others keep their order. */
    method DeleteDocInfo(fileName: string)
      modifies this
      ensures rows == Unnamed(old(rows), fileName)
      ensures forall i :: 0 <= i < |rows| ==> rows[i].docName != fileName
    {
      UnnamedRemoves(rows, fileName);
      rows := Unnamed(rows, fileName);
      NamedEmpty(rows, fileName);
    }
  }

  /** Named selects nothing exactly when no row has the name, and otherwise starts with the first such row. */
  lemma FirstRowFacts(rows: seq<Row>, name: string)
    ensures Named(rows, name) == [] <==> forall i :: 0 <= i < |rows| ==> rows[i].docName != name
    ensures forall i :: (0 <= i < |rows| && rows[i].docName == name &&
                          (forall j :: 0 <= j < i ==> rows[j].docName != name)) ==> Named(rows, name) != [] && Named(rows, name)[0] == rows[i]
  {
    NamedSpec(rows, name);
    if forall i :: 0 <= i < |rows| ==> rows[i].docName != name {
      NamedNone(rows, name);
    }
    forall i | 0 <= i < |rows| && rows[i].docName == name && (forall j :: 0 <= j < i ==> rows[j].docName != name)
      ensures Named(rows, name) != [] && Named(rows, name)[0] == rows[i]
    {
      NamedFirst(rows, name, i);
    }
  }

  /** An empty selection means no row has the name. */
  lemma NamedEmpty(rows: seq<Row>, name: string)
    requires Named(rows, name) == []
    ensures forall i :: 0 <= i < |rows| ==> rows[i].docName != name
  {
    NamedSpec(rows, name);
  }

  /** After delete_doc_info(f) both getters fail for f, and answer as before for every other document. */
  lemma DeleteThenGet(rows: seq<Row>, name: string, other: string)
    requires other != name
    ensures Named(Unnamed(rows, name), name) == []
    ensures Named(Unnamed(rows, name), other) == Named(rows, other)
  {
    UnnamedRemoves(rows, name);
    UnnamedKeepsOthers(rows, name, other);
  }

  /** A second update_doc_info for a document already in the table is invisible to the getters: the first row wins. */
  lemma UpdateKeepsFirst(rows: seq<Row>, x: Row)
    requires Named(rows, x.docName) != []
    ensures Named(rows + [x], x.docName)[0] == Named(rows, x.docName)[0]
  {
    NamedAppend(rows, x, x.docName);
  }
}
