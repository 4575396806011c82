/** Assembling the time series from the dataset's lines (SpacecraftRenderingTools::loadMesh,
    src/application.cpp), without the file open.

    Number parsing is an oracle: a line is given as the successive outcomes of the stream
    extraction `iss >> val`, each either a parsed value or a failure. */
module Dataset {
  import opened Mesh

  datatype Extraction = Parsed(value: real) | Failed

  /** The numbers read from one line: extraction stops at the first failure. */
  function NumbersOf(line: seq<Extraction>): seq<real>
  {
    if line == [] || line[0].Failed? then [] else [line[0].value] + NumbersOf(line[1..])
  }

  /** NumbersOf is the longest run of successful extractions at the start of the line:
      every value read comes from the line in order, and reading stopped either at the end
      of the line or at a failed extraction. */
  lemma {:induction false} NumbersOfIsParsedPrefix(line: seq<Extraction>)
    ensures var values := NumbersOf(line);
            && |values| <= |line|
            && (forall i :: 0 <= i < |values| ==> line[i] == Parsed(values[i]))
            && (|values| < |line| ==> line[|values|].Failed?)
  {
    if line != [] && line[0].Parsed? {
      NumbersOfIsParsedPrefix(line[1..]);
    }
  }

  /** The inner `while (iss >> val) values.push_back(val);` loop. */
  method ReadLine(line: seq<Extraction>) returns (values: seq<real>)
    ensures values == NumbersOf(line)
  {
    values := [];
    var i := 0;
    while i < |line| && line[i].Parsed?
      invariant 0 <= i <= |line|
      invariant values + NumbersOf(line[i..]) == NumbersOf(line)
    {
      assert line[i..][1..] == line[i + 1..];
      values := values + [line[i].value];
      i := i + 1;
    }
  }

  /** The records kept from the lines: every line's numbers, skipping lines that gave none. */
  function Records(lines: seq<seq<Extraction>>): seq<seq<real>>
  {
    if lines == [] then []
    else
      var last := NumbersOf(lines[|lines| - 1]);
      Records(lines[..|lines| - 1]) + (if last == [] then [] else [last])
  }

  /** Records distributes over concatenation of files: each line contributes its own
      numbers, or nothing when it gave none, in file order. */
  lemma {:induction false} RecordsConcat(a: seq<seq<Extraction>>, b: seq<seq<Extraction>>)
    ensures Records(a + b) == Records(a) + Records(b)
  {
    if b == [] {
      assert a + b == a;
    } else {
      var b' := b[..|b| - 1];
      assert (a + b)[..|a + b| - 1] == a + b';
      RecordsConcat(a, b');
    }
  }

  /** No kept record is empty, and there are never more records than lines. */
  lemma {:induction false} RecordsNonEmpty(lines: seq<seq<Extraction>>)
    ensures |Records(lines)| <= |lines|
    ensures forall r :: r in Records(lines) ==> r != []
  {
    if lines != [] {
      RecordsNonEmpty(lines[..|lines| - 1]);
    }
  }

  /** The outer `while (std::getline(file, line))` loop filling allData. */
  method ReadRecords(lines: seq<seq<Extraction>>) returns (allData: seq<seq<real>>)
    ensures allData == Records(lines)
  {
    allData := [];
    var n := 0;
    while n < |lines|
      invariant 0 <= n <= |lines|
      invariant allData == Records(lines[..n])
    {
      var values := ReadLine(lines[n]);
      assert lines[..n + 1][..n] == lines[..n];
      if values != [] {
        allData := allData + [values];
      }
      n := n + 1;
    }
    assert lines[..n] == lines;
  }

  /** Every record is long enough to be decoded (the source reads record[1..12] unchecked). */
  predicate WellFormed(records: seq<seq<real>>)
  {
    forall r :: r in records ==> |r| >= HeaderLength
  }

  /** times_: the first value of every record, in record order, duplicates included. */
  function TimesOf(records: seq<seq<real>>): (times: seq<real>)
    requires WellFormed(records)
    ensures |times| == |records|
    ensures forall i :: 0 <= i < |records| ==> times[i] == records[i][0]
  {
    seq(|records|, i requires 0 <= i < |records| => records[i][0])
  }

  /** spacecraftData_ after `data[record[0]] = MeshData(record)` for each record in turn. */
  function Assemble(data: map<real, MeshData>, records: seq<seq<real>>): map<real, MeshData>
    requires WellFormed(records)
  {
    if records == [] then data
    else
      var last := records[|records| - 1];
      Assemble(data, records[..|records| - 1])[last[0] := MeshOf(last)]
  }

  /** One more record: its timestamp is appended and its mesh stored under it. */
  lemma LoadStep(records: seq<seq<real>>, k: nat)
    requires WellFormed(records) && k < |records|
    ensures WellFormed(records[..k + 1])
    ensures TimesOf(records[..k + 1]) == TimesOf(records[..k]) + [records[k][0]]
    ensures forall data: map<real, MeshData> ::
              Assemble(data, records[..k + 1]) == Assemble(data, records[..k])[records[k][0] := MeshOf(records[k])]
  {
    assert records[..k + 1][..k] == records[..k];
    assert forall r :: r in records[..k + 1] ==> r in records;
  }

  /** times_ lists exactly the timestamps that have a mesh. */
  predicate TimesAreKeys(times: seq<real>, data: map<real, MeshData>)
  {
    && (forall t :: t in times ==> t in data)
    && (forall t :: t in data ==> t in times)
  }

  /** Loading more records keeps times_ and the keys in step. */
  lemma {:induction false} AssemblePreservesTimes(times: seq<real>, data: map<real, MeshData>, records: seq<seq<real>>)
    requires WellFormed(records)
    requires TimesAreKeys(times, data)
    ensures TimesAreKeys(times + TimesOf(records), Assemble(data, records))
  {
    AssembleKeys(data, records);
    forall t
      ensures t in times + TimesOf(records) <==> t in Assemble(data, records)
    {
      assert t in times + TimesOf(records) <==> t in times || t in TimesOf(records);
    }
  }

  /** The keys after assembly are the keys before plus every record's timestamp. */
  lemma {:induction false} AssembleKeys(data: map<real, MeshData>, records: seq<seq<real>>)
    requires WellFormed(records)
    ensures forall t :: t in Assemble(data, records) <==> t in data || t in TimesOf(records)
  {
    if records != [] {
      var n := |records| - 1;
      var prefix := records[..n];
      assert forall r :: r in prefix ==> r in records;
      AssembleKeys(data, prefix);
      assert TimesOf(records) == TimesOf(prefix) + [records[n][0]];
      forall t
        ensures t in Assemble(data, records) <==> t in data || t in TimesOf(records)
      {
        assert t in TimesOf(records) <==> t in TimesOf(prefix) || t == records[n][0];
      }
    }
  }

  /** With duplicate timestamps the later record wins: the value stored under a record's
      timestamp is that record's mesh when no later record has the same timestamp. */
  lemma {:induction false} AssembleLastWins(data: map<real, MeshData>, records: seq<seq<real>>, j: nat)
    requires WellFormed(records)
    requires j < |records|
    requires forall j' :: j < j' < |records| ==> records[j'][0] != records[j][0]
    ensures records[j][0] in Assemble(data, records)
    ensures Assemble(data, records)[records[j][0]] == MeshOf(records[j])
  {
    if j < |records| - 1 {
      AssembleLastWins(data, records[..|records| - 1], j);
    }
  }

  /** A key that no record names keeps the value it had before. */
  lemma {:induction false} AssembleKeepsOthers(data: map<real, MeshData>, records: seq<seq<real>>, t: real)
    requires WellFormed(records)
    requires t in data
    requires forall i :: 0 <= i < |records| ==> records[i][0] != t
    ensures t in Assemble(data, records) && Assemble(data, records)[t] == data[t]
  {
    if records != [] {
      AssembleKeepsOthers(data, records[..|records| - 1], t);
    }
  }
}
