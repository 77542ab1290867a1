// The ShareFile entity: drafts collected by a create builder, the defaults and checks that
// run over them, the insert specification, and the row decoder that has to invert it.
module ShareFiles {
  import opened Wrappers

  type Int64 = n: int | -0x8000_0000_0000_0000 <= n < 0x8000_0000_0000_0000

  type Bytes = seq<bv8>

  // Columns by number: the eleven of share_files in table order, every other number standing
  // for a name the entity does not know.
  type Column = nat

  const ID: Column := 0
  const USER_ID: Column := 1
  const SHARE_ID: Column := 2
  const STORAGE_NAME: Column := 3
  const VIRTUAL_PATH: Column := 4
  const SIZE_BYTES: Column := 5
  const MTIME: Column := 6
  const BLAKE3: Column := 7
  const BLOCK_SIZE: Column := 8
  const BLOCK_HASHES: Column := 9
  const CREATED_AT: Column := 10

  // ---------------------------------------------------------------------------------------
  // Creating
  // ---------------------------------------------------------------------------------------

  /** What a ShareFileMutation has been told so far. The owner and share pointers are at the
      same time the user_id and share_id fields. `creates` says that its operation is to create. */
  datatype Draft = Draft(
    creates: bool, id: Option<string>, owner: Option<string>, share: Option<string>,
    storageName: Option<string>, virtualPath: Option<string>, sizeBytes: Option<Int64>,
    mtime: Option<int>, blake3: Option<string>, blockSize: Option<Int64>,
    blockHashes: Option<seq<string>>, createdAt: Option<int>)

  datatype Failure =
    | UninitializedDefault(field: Column)
    | ValidationError(column: Column)
    | MissingEdge(edge: string)

  /** The user-defined validators (true: accepted) and the default block size. */
  datatype Rules = Rules(
    storageName: string -> bool, virtualPath: string -> bool, sizeBytes: Int64 -> bool,
    blake3: string -> bool, blockSize: Int64 -> bool, blockHashes: seq<string> -> bool,
    defaultBlockSize: Int64)

  /** What DefaultCreatedAt and DefaultID return at one call; None is an unset function. */
  datatype Stamp = Stamp(createdAt: Option<int>, id: Option<string>)

  /** Fills unset fields in the order of the builder and stops at the first unset default. */
  function Defaults(rules: Rules, stamp: Stamp, d: Draft): (Draft, Option<Failure>)
  {
    var d := if d.blockSize.None? then d.(blockSize := Some(rules.defaultBlockSize)) else d;
    if d.createdAt.None? && stamp.createdAt.None? then
      (d, Some(UninitializedDefault(CREATED_AT)))
    else
      var d := if d.createdAt.None? then d.(createdAt := stamp.createdAt) else d;
      if d.id.None? && stamp.id.None? then
        (d, Some(UninitializedDefault(ID)))
      else
        (if d.id.None? then d.(id := stamp.id) else d, None)
  }

  /** The checks, in the order in which the builder runs them. */
  function Check(rules: Rules, d: Draft): Option<Failure>
  {
    if d.owner.None? then Some(ValidationError(USER_ID))
    else if d.share.None? then Some(ValidationError(SHARE_ID))
    else if d.storageName.None? then Some(ValidationError(STORAGE_NAME))
    else if !rules.storageName(d.storageName.value) then Some(ValidationError(STORAGE_NAME))
    else if d.virtualPath.None? then Some(ValidationError(VIRTUAL_PATH))
    else if !rules.virtualPath(d.virtualPath.value) then Some(ValidationError(VIRTUAL_PATH))
    else if d.sizeBytes.None? then Some(ValidationError(SIZE_BYTES))
    else if !rules.sizeBytes(d.sizeBytes.value) then Some(ValidationError(SIZE_BYTES))
    else if d.mtime.None? then Some(ValidationError(MTIME))
    else if d.blake3.None? then Some(ValidationError(BLAKE3))
    else if !rules.blake3(d.blake3.value) then Some(ValidationError(BLAKE3))
    else if d.blockSize.None? then Some(ValidationError(BLOCK_SIZE))
    else if !rules.blockSize(d.blockSize.value) then Some(ValidationError(BLOCK_SIZE))
    else if d.blockHashes.None? then Some(ValidationError(BLOCK_HASHES))
    else if !rules.blockHashes(d.blockHashes.value) then Some(ValidationError(BLOCK_HASHES))
    else if d.createdAt.None? then Some(ValidationError(CREATED_AT))
    else if |OwnerIDs(d)| == 0 then Some(MissingEdge("owner"))
    else if |ShareIDs(d)| == 0 then Some(MissingEdge("share"))
    else None
  }

  /** What the defaults fill in, and when they fail. */
  lemma {:induction false} DefaultsFillIn(rules: Rules, stamp: Stamp, d: Draft)
    ensures var (d', failure) := Defaults(rules, stamp, d);
      var noTime, noId := d.createdAt.None? && stamp.createdAt.None?, d.id.None? && stamp.id.None?;
      && failure == (if noTime then Some(UninitializedDefault(CREATED_AT))
                     else if noId then Some(UninitializedDefault(ID))
                     else None)
      && d'.blockSize == Some(d.blockSize.GetOr(rules.defaultBlockSize))
      && d'.createdAt == (if d.createdAt.Some? then d.createdAt else stamp.createdAt)
      && d'.id == (if d.id.Some? || noTime then d.id else stamp.id)
      && d'.(id := d.id, createdAt := d.createdAt, blockSize := d.blockSize) == d
  {
  }

  /** The columns that a new row needs, in the order in which they are checked. */
  const REQUIRED: seq<Column> :=
    [USER_ID, SHARE_ID, STORAGE_NAME, VIRTUAL_PATH, SIZE_BYTES, MTIME, BLAKE3, BLOCK_SIZE, BLOCK_HASHES, CREATED_AT]

  /** The draft has a value for the column, and one that the column's validator accepts. */
  predicate Accepted(rules: Rules, d: Draft, c: Column)
  {
    && (c == USER_ID ==> d.owner.Some?)
    && (c == SHARE_ID ==> d.share.Some?)
    && (c == STORAGE_NAME ==> d.storageName.Some? && rules.storageName(d.storageName.value))
    && (c == VIRTUAL_PATH ==> d.virtualPath.Some? && rules.virtualPath(d.virtualPath.value))
    && (c == SIZE_BYTES ==> d.sizeBytes.Some? && rules.sizeBytes(d.sizeBytes.value))
    && (c == MTIME ==> d.mtime.Some?)
    && (c == BLAKE3 ==> d.blake3.Some? && rules.blake3(d.blake3.value))
    && (c == BLOCK_SIZE ==> d.blockSize.Some? && rules.blockSize(d.blockSize.value))
    && (c == BLOCK_HASHES ==> d.blockHashes.Some? && rules.blockHashes(d.blockHashes.value))
    && (c == CREATED_AT ==> d.createdAt.Some?)
  }

  /** The checks pass if and only if every needed column is accepted, and otherwise name the first
      that is not. */
  lemma {:induction false} CheckNamesTheFirst(rules: Rules, d: Draft) returns (p: nat)
    ensures p <= |REQUIRED| && forall q :: 0 <= q < p ==> Accepted(rules, d, REQUIRED[q])
    ensures if p == |REQUIRED| then Check(rules, d) == None
            else !Accepted(rules, d, REQUIRED[p]) && Check(rules, d) == Some(ValidationError(REQUIRED[p]))
  {
    p := 0;
    while p < |REQUIRED| && Accepted(rules, d, REQUIRED[p])
      invariant p <= |REQUIRED| && forall q :: 0 <= q < p ==> Accepted(rules, d, REQUIRED[q])
    {
      p := p + 1;
    }
    AcceptedUpTo(rules, d, p);
  }

  lemma {:induction false} AcceptedUpTo(rules: Rules, d: Draft, p: nat)
    requires p <= |REQUIRED| && forall q :: 0 <= q < p ==> Accepted(rules, d, REQUIRED[q])
    requires p < |REQUIRED| ==> !Accepted(rules, d, REQUIRED[p])
    ensures Check(rules, d) == if p == |REQUIRED| then None else Some(ValidationError(REQUIRED[p]))
  {
    assert p > 0 ==> Accepted(rules, d, REQUIRED[0]);
    assert p > 1 ==> Accepted(rules, d, REQUIRED[1]);
    assert p > 2 ==> Accepted(rules, d, REQUIRED[2]);
    assert p > 3 ==> Accepted(rules, d, REQUIRED[3]);
    assert p > 4 ==> Accepted(rules, d, REQUIRED[4]);
    assert p > 5 ==> Accepted(rules, d, REQUIRED[5]);
    assert p > 6 ==> Accepted(rules, d, REQUIRED[6]);
    assert p > 7 ==> Accepted(rules, d, REQUIRED[7]);
    assert p > 8 ==> Accepted(rules, d, REQUIRED[8]);
    assert p > 9 ==> Accepted(rules, d, REQUIRED[9]);
  }

  function OwnerIDs(d: Draft): seq<string>
  {
    if d.owner.Some? then [d.owner.value] else []
  }

  function ShareIDs(d: Draft): seq<string>
  {
    if d.share.Some? then [d.share.value] else []
  }

  /** The fields of the entity; a field that was never assigned holds Go's zero value. */
  datatype Fields = Fields(
    id: string, userID: string, shareID: string, storageName: string, virtualPath: string,
    sizeBytes: Int64, mtime: int, blake3: string, blockSize: Int64,
    blockHashes: seq<string>, createdAt: int)

  const ZERO := Fields("", "", "", "", "", 0, 0, "", 0, [], 0)

  datatype Value = Text(s: string) | Number(n: Int64) | Moment(t: int) | Strings(ss: seq<string>)

  /** An insert: the fields to set, and for every inverse many-to-one edge the targets whose
      id goes into its column of this table. */
  datatype Spec = Spec(id: Option<string>, fields: map<Column, Value>, edges: map<Column, seq<string>>)

  function AsText(v: Option<string>): Option<Value> { if v.Some? then Some(Text(v.value)) else None }
  function AsNumber(v: Option<Int64>): Option<Value> { if v.Some? then Some(Number(v.value)) else None }
  function AsMoment(v: Option<int>): Option<Value> { if v.Some? then Some(Moment(v.value)) else None }
  function AsStrings(v: Option<seq<string>>): Option<Value> { if v.Some? then Some(Strings(v.value)) else None }

  /** The value the builder sets for a plain column, if the draft has one. */
  function FieldValue(d: Draft, column: Column): Option<Value>
  {
    if column == STORAGE_NAME then AsText(d.storageName)
    else if column == VIRTUAL_PATH then AsText(d.virtualPath)
    else if column == SIZE_BYTES then AsNumber(d.sizeBytes)
    else if column == MTIME then AsMoment(d.mtime)
    else if column == BLAKE3 then AsText(d.blake3)
    else if column == BLOCK_SIZE then AsNumber(d.blockSize)
    else if column == BLOCK_HASHES then AsStrings(d.blockHashes)
    else if column == CREATED_AT then AsMoment(d.createdAt)
    else None
  }

  /** The targets of the edge that is stored in a column. */
  function EdgeTargets(d: Draft, column: Column): seq<string>
  {
    if column == USER_ID then OwnerIDs(d) else if column == SHARE_ID then ShareIDs(d) else []
  }

  /** The entity the builder hands back and the specification it hands to the SQL library. */
  function CreateSpec(d: Draft): (Fields, Spec)
  {
    var spec := Spec(
      d.id,
      map c: Column | ID <= c <= CREATED_AT && FieldValue(d, c).Some? :: FieldValue(d, c).value,
      map c: Column | ID <= c <= CREATED_AT && |EdgeTargets(d, c)| > 0 :: EdgeTargets(d, c));
    var node := Fields(
      d.id.GetOr(ZERO.id),
      if OwnerIDs(d) != [] then OwnerIDs(d)[0] else ZERO.userID,
      if ShareIDs(d) != [] then ShareIDs(d)[0] else ZERO.shareID,
      d.storageName.GetOr(ZERO.storageName),
      d.virtualPath.GetOr(ZERO.virtualPath),
      d.sizeBytes.GetOr(ZERO.sizeBytes),
      d.mtime.GetOr(ZERO.mtime),
      d.blake3.GetOr(ZERO.blake3),
      d.blockSize.GetOr(ZERO.blockSize),
      d.blockHashes.GetOr(ZERO.blockHashes),
      d.createdAt.GetOr(ZERO.createdAt));
    (node, spec)
  }

  // ---------------------------------------------------------------------------------------
  // Decoding
  // ---------------------------------------------------------------------------------------

  /** A stored cell. JSON columns are stored as the bytes of their encoding. */
  datatype Cell = Null | TextCell(s: string) | NumberCell(n: Int64) | MomentCell(t: int) | BlobCell(b: Bytes)

  /** The destinations the decoder hands to the SQL driver. */
  datatype Holder =
    | NullString(text: Option<string>)
    | NullInt64(number: Option<Int64>)
    | NullTime(moment: Option<int>)
    | RawBytes(bytes: Option<Bytes>)
    | UnknownType(cell: Cell)

  datatype Codec = Codec(marshal: seq<string> -> Bytes, unmarshal: Bytes -> Option<seq<string>>)

  /** The one assumption about encoding/json: it reads back what it wrote, and writes something. */
  ghost predicate Inverse(codec: Codec)
  {
    forall ss: seq<string> ::
      codec.marshal(ss) != [] && codec.unmarshal(codec.marshal(ss)) == Some(ss)
  }

  predicate IsTextColumn(column: Column)
  {
    column == ID || column == USER_ID || column == SHARE_ID || column == STORAGE_NAME || column == VIRTUAL_PATH ||
    column == BLAKE3
  }

  predicate IsNumberColumn(column: Column)
  {
    column == SIZE_BYTES || column == BLOCK_SIZE
  }

  predicate IsMomentColumn(column: Column)
  {
    column == MTIME || column == CREATED_AT
  }

  function NewHolder(column: Column): Holder
  {
    if column == BLOCK_HASHES then RawBytes(None)
    else if IsNumberColumn(column) then NullInt64(None)
    else if IsTextColumn(column) then NullString(None)
    else if IsMomentColumn(column) then NullTime(None)
    else UnknownType(Null)
  }

  predicate SameType(a: Holder, b: Holder)
  {
    || (a.NullString? && b.NullString?)
    || (a.NullInt64? && b.NullInt64?)
    || (a.NullTime? && b.NullTime?)
    || (a.RawBytes? && b.RawBytes?)
    || (a.UnknownType? && b.UnknownType?)
  }

  datatype DecodeError =
    | Mismatch(values: nat, columns: nat)
    | UnexpectedType(column: Column)
    | Unmarshal(column: Column)

  /** The failure, if any, that decoding this one cell is. */
  function CellError(codec: Codec, column: Column, value: Holder): Option<DecodeError>
  {
    if IsTextColumn(column) && !value.NullString? then Some(UnexpectedType(column))
    else if IsNumberColumn(column) && !value.NullInt64? then Some(UnexpectedType(column))
    else if IsMomentColumn(column) && !value.NullTime? then Some(UnexpectedType(column))
    else if column == BLOCK_HASHES then
      if !value.RawBytes? then Some(UnexpectedType(column))
      else if value.bytes.Some? && value.bytes.value != [] && codec.unmarshal(value.bytes.value).None? then
        Some(Unmarshal(column))
      else None
    else None
  }

  // What one decoded cell does to a field: a non-null cell of the field's own column replaces
  // it, any other cell leaves it alone.

  function TextAfter(column: Column, value: Holder, field: Column, before: string): string
  {
    if column == field && value.NullString? && value.text.Some? then value.text.value else before
  }

  function NumberAfter(column: Column, value: Holder, field: Column, before: Int64): Int64
  {
    if column == field && value.NullInt64? && value.number.Some? then value.number.value else before
  }

  function MomentAfter(column: Column, value: Holder, field: Column, before: int): int
  {
    if column == field && value.NullTime? && value.moment.Some? then value.moment.value else before
  }

  function StringsAfter(codec: Codec, column: Column, value: Holder, before: seq<string>): seq<string>
  {
    if && column == BLOCK_HASHES && value.RawBytes? && value.bytes.Some? && value.bytes.value != []
       && codec.unmarshal(value.bytes.value).Some?
    then codec.unmarshal(value.bytes.value).value
    else before
  }

  // The field after the first k columns: its last non-null occurrence, read from the end.

  function LastText(columns: seq<Column>, values: seq<Holder>, k: nat, field: Column, start: string): string
    requires k <= |columns| <= |values|
  {
    if k == 0 then start
    else TextAfter(columns[k - 1], values[k - 1], field, LastText(columns, values, k - 1, field, start))
  }

  function LastNumber(columns: seq<Column>, values: seq<Holder>, k: nat, field: Column, start: Int64): Int64
    requires k <= |columns| <= |values|
  {
    if k == 0 then start
    else NumberAfter(columns[k - 1], values[k - 1], field, LastNumber(columns, values, k - 1, field, start))
  }

  function LastMoment(columns: seq<Column>, values: seq<Holder>, k: nat, field: Column, start: int): int
    requires k <= |columns| <= |values|
  {
    if k == 0 then start
    else MomentAfter(columns[k - 1], values[k - 1], field, LastMoment(columns, values, k - 1, field, start))
  }

  function LastStrings(codec: Codec, columns: seq<Column>, values: seq<Holder>, k: nat, start: seq<string>): seq<string>
    requires k <= |columns| <= |values|
  {
    if k == 0 then start
    else StringsAfter(codec, columns[k - 1], values[k - 1], LastStrings(codec, columns, values, k - 1, start))
  }

  /** The text, if any, that a cell brings to a field. */
  function TextIn(column: Column, value: Holder, field: Column): Option<string>
  {
    if column == field && value.NullString? then value.text else None
  }

  /** A text field keeps what it held if no cell brings anything, and otherwise has what the last
      cell brings that brings something. */
  lemma {:induction false} LastTextIs(columns: seq<Column>, values: seq<Holder>, k: nat, field: Column, start: string)
      returns (p: nat)
    requires k <= |columns| <= |values|
    ensures p <= k && forall i :: p <= i < k ==> TextIn(columns[i], values[i], field) == None
    ensures if p == 0 then LastText(columns, values, k, field, start) == start
            else TextIn(columns[p - 1], values[p - 1], field) == Some(LastText(columns, values, k, field, start))
  {
    p := k;
    if k > 0 && TextIn(columns[k - 1], values[k - 1], field).None? {
      p := LastTextIs(columns, values, k - 1, field, start);
    }
  }

  function NumberIn(column: Column, value: Holder, field: Column): Option<Int64>
  {
    if column == field && value.NullInt64? then value.number else None
  }

  lemma {:induction false} LastNumberIs(columns: seq<Column>, values: seq<Holder>, k: nat, field: Column, start: Int64)
      returns (p: nat)
    requires k <= |columns| <= |values|
    ensures p <= k && forall i :: p <= i < k ==> NumberIn(columns[i], values[i], field) == None
    ensures if p == 0 then LastNumber(columns, values, k, field, start) == start
            else NumberIn(columns[p - 1], values[p - 1], field) == Some(LastNumber(columns, values, k, field, start))
  {
    p := k;
    if k > 0 && NumberIn(columns[k - 1], values[k - 1], field).None? {
      p := LastNumberIs(columns, values, k - 1, field, start);
    }
  }

  function MomentIn(column: Column, value: Holder, field: Column): Option<int>
  {
    if column == field && value.NullTime? then value.moment else None
  }

  lemma {:induction false} LastMomentIs(columns: seq<Column>, values: seq<Holder>, k: nat, field: Column, start: int)
      returns (p: nat)
    requires k <= |columns| <= |values|
    ensures p <= k && forall i :: p <= i < k ==> MomentIn(columns[i], values[i], field) == None
    ensures if p == 0 then LastMoment(columns, values, k, field, start) == start
            else MomentIn(columns[p - 1], values[p - 1], field) == Some(LastMoment(columns, values, k, field, start))
  {
    p := k;
    if k > 0 && MomentIn(columns[k - 1], values[k - 1], field).None? {
      p := LastMomentIs(columns, values, k - 1, field, start);
    }
  }

  /** The hashes that a cell brings: those of its JSON, if it has any. */
  function StringsIn(codec: Codec, column: Column, value: Holder): Option<seq<string>>
  {
    if column == BLOCK_HASHES && value.RawBytes? && value.bytes.Some? && value.bytes.value != [] then
      codec.unmarshal(value.bytes.value)
    else None
  }

  lemma {:induction false} LastStringsIs(codec: Codec, columns: seq<Column>, values: seq<Holder>, k: nat,
                                         start: seq<string>)
      returns (p: nat)
    requires k <= |columns| <= |values|
    ensures p <= k && forall i :: p <= i < k ==> StringsIn(codec, columns[i], values[i]) == None
    ensures if p == 0 then LastStrings(codec, columns, values, k, start) == start
            else StringsIn(codec, columns[p - 1], values[p - 1]) == Some(LastStrings(codec, columns, values, k, start))
  {
    p := k;
    if k > 0 && StringsIn(codec, columns[k - 1], values[k - 1]).None? {
      p := LastStringsIs(codec, columns, values, k - 1, start);
    }
  }

  /** A cell fails to decode if it is not in the holder made for its column, or is not the JSON
      that it has to be; a column that the entity does not know takes anything. */
  lemma {:induction false} CellErrorIs(codec: Codec, c: Column, value: Holder)
    ensures CellError(codec, c, value) ==
            if c <= CREATED_AT && !SameType(NewHolder(c), value) then Some(UnexpectedType(c))
            else if c == BLOCK_HASHES && value.bytes.GetOr([]) != [] && codec.unmarshal(value.bytes.value).None? then
              Some(Unmarshal(c))
            else None
    ensures c <= CREATED_AT <==> IsField(c)
  {
  }

  /** A column that the entity does not know is kept as its last cell. */
  lemma {:induction false} SelectedIs(columns: seq<Column>, values: seq<Holder>, k: nat, start: map<Column, Holder>,
                                      c: Column)
      returns (p: nat)
    requires k <= |columns| <= |values|
    ensures p <= k && forall i :: p <= i < k ==> columns[i] != c || IsField(c)
    ensures var m := Selected(columns, values, k, start);
      if p == 0 then (c in m <==> c in start) && (c in m ==> m[c] == start[c])
      else columns[p - 1] == c && !IsField(c) && c in m && m[c] == values[p - 1]
  {
    p := k;
    if k > 0 && (columns[k - 1] != c || IsField(c)) {
      p := SelectedIs(columns, values, k - 1, start, c);
    }
  }

  /** The entity after the first k columns have been decoded over the fields f. */
  ghost function Decoded(codec: Codec, columns: seq<Column>, values: seq<Holder>, k: nat, f: Fields): Fields
    requires k <= |columns| <= |values|
  {
    Fields(
      LastText(columns, values, k, ID, f.id),
      LastText(columns, values, k, USER_ID, f.userID),
      LastText(columns, values, k, SHARE_ID, f.shareID),
      LastText(columns, values, k, STORAGE_NAME, f.storageName),
      LastText(columns, values, k, VIRTUAL_PATH, f.virtualPath),
      LastNumber(columns, values, k, SIZE_BYTES, f.sizeBytes),
      LastMoment(columns, values, k, MTIME, f.mtime),
      LastText(columns, values, k, BLAKE3, f.blake3),
      LastNumber(columns, values, k, BLOCK_SIZE, f.blockSize),
      LastStrings(codec, columns, values, k, f.blockHashes),
      LastMoment(columns, values, k, CREATED_AT, f.createdAt))
  }

  predicate IsField(column: Column)
  {
    IsTextColumn(column) || IsNumberColumn(column) || IsMomentColumn(column) || column == BLOCK_HASHES
  }

  /** The dynamically selected columns, the last occurrence of a name winning. */
  function Selected(columns: seq<Column>, values: seq<Holder>, k: nat, start: map<Column, Holder>): map<Column, Holder>
    requires k <= |columns| <= |values|
  {
    if k == 0 then start
    else
      var m := Selected(columns, values, k - 1, start);
      if IsField(columns[k - 1]) then m else m[columns[k - 1] := values[k - 1]]
  }

  method ScanValues(columns: seq<Column>) returns (values: seq<Holder>)
    ensures |values| == |columns|
    ensures forall i :: 0 <= i < |columns| ==> values[i] == NewHolder(columns[i])
  {
    values := [];
    for i := 0 to |columns|
      invariant |values| == i
      invariant forall k :: 0 <= k < i ==> values[k] == NewHolder(columns[k])
    {
      values := values + [NewHolder(columns[i])];
    }
  }

  class ShareFile {
    var id: string
    var userID: string
    var shareID: string
    var storageName: string
    var virtualPath: string
    var sizeBytes: Int64
    var mtime: int
    var blake3: string
    var blockSize: Int64
    var blockHashes: seq<string>
    var createdAt: int
    var selectValues: map<Column, Holder>

    ghost function View(): Fields
      reads this
    {
      Fields(id, userID, shareID, storageName, virtualPath, sizeBytes, mtime, blake3, blockSize, blockHashes, createdAt)
    }

    constructor ()
      ensures View() == ZERO && selectValues == map[]
    {
      id, userID, shareID, storageName, virtualPath := "", "", "", "", "";
      sizeBytes, mtime, blake3, blockSize, blockHashes, createdAt := 0, 0, "", 0, [], 0;
      selectValues := map[];
    }

    /** Decoding stops at the first bad cell, with everything before it already assigned. */
    method AssignValues(codec: Codec, columns: seq<Column>, values: seq<Holder>)
        returns (err: Option<DecodeError>, ghost k: nat)
      modifies this
      ensures |values| < |columns| ==>
        err == Some(Mismatch(|values|, |columns|)) && View() == old(View()) && selectValues == old(selectValues)
      ensures |columns| <= |values| ==>
        && k <= |columns|
        && (forall i :: 0 <= i < k ==> CellError(codec, columns[i], values[i]).None?)
        && err == (if k < |columns| then CellError(codec, columns[k], values[k]) else None)
        && (err.None? ==> k == |columns|)
        && View() == Decoded(codec, columns, values, k, old(View()))
        && selectValues == Selected(columns, values, k, old(selectValues))
    {
      k := 0;
      if |values| < |columns| {
        return Some(Mismatch(|values|, |columns|)), 0;
      }
      for i := 0 to |columns|
        invariant k == i
        invariant forall j :: 0 <= j < i ==> CellError(codec, columns[j], values[j]).None?
        invariant View() == Decoded(codec, columns, values, i, old(View()))
        invariant selectValues == Selected(columns, values, i, old(selectValues))
      {
        err := AssignValue(codec, columns[i], values[i]);
        if err.Some? {
          return;
        }
        k := i + 1;
      }
      err := None;
    }

    /** One turn of the switch over the column name. */
    method AssignValue(codec: Codec, column: Column, value: Holder) returns (err: Option<DecodeError>)
      modifies this
      ensures err == CellError(codec, column, value)
      ensures err.Some? ==> View() == old(View()) && selectValues == old(selectValues)
      ensures err.None? ==>
        && View() == old(Fields(
          TextAfter(column, value, ID, id),
          TextAfter(column, value, USER_ID, userID),
          TextAfter(column, value, SHARE_ID, shareID),
          TextAfter(column, value, STORAGE_NAME, storageName),
          TextAfter(column, value, VIRTUAL_PATH, virtualPath),
          NumberAfter(column, value, SIZE_BYTES, sizeBytes),
          MomentAfter(column, value, MTIME, mtime),
          TextAfter(column, value, BLAKE3, blake3),
          NumberAfter(column, value, BLOCK_SIZE, blockSize),
          StringsAfter(codec, column, value, blockHashes),
          MomentAfter(column, value, CREATED_AT, createdAt)))
        && selectValues == if IsField(column) then old(selectValues) else old(selectValues)[column := value]
    {
      err := None;
      if column == ID {
        if !value.NullString? { return Some(UnexpectedType(column)); }
        if value.text.Some? { id := value.text.value; }
      } else if column == USER_ID {
        if !value.NullString? { return Some(UnexpectedType(column)); }
        if value.text.Some? { userID := value.text.value; }
      } else if column == SHARE_ID {
        if !value.NullString? { return Some(UnexpectedType(column)); }
        if value.text.Some? { shareID := value.text.value; }
      } else if column == STORAGE_NAME {
        if !value.NullString? { return Some(UnexpectedType(column)); }
        if value.text.Some? { storageName := value.text.value; }
      } else if column == VIRTUAL_PATH {
        if !value.NullString? { return Some(UnexpectedType(column)); }
        if value.text.Some? { virtualPath := value.text.value; }
      } else if column == SIZE_BYTES {
        if !value.NullInt64? { return Some(UnexpectedType(column)); }
        if value.number.Some? { sizeBytes := value.number.value; }
      } else if column == MTIME {
        if !value.NullTime? { return Some(UnexpectedType(column)); }
        if value.moment.Some? { mtime := value.moment.value; }
      } else if column == BLAKE3 {
        if !value.NullString? { return Some(UnexpectedType(column)); }
        if value.text.Some? { blake3 := value.text.value; }
      } else if column == BLOCK_SIZE {
        if !value.NullInt64? { return Some(UnexpectedType(column)); }
        if value.number.Some? { blockSize := value.number.value; }
      } else if column == BLOCK_HASHES {
        if !value.RawBytes? { return Some(UnexpectedType(column)); }
        if value.bytes.Some? && value.bytes.value != [] {
          var hashes := codec.unmarshal(value.bytes.value);
          if hashes.None? { return Some(Unmarshal(column)); }
          blockHashes := hashes.value;
        }
      } else if column == CREATED_AT {
        if !value.NullTime? { return Some(UnexpectedType(column)); }
        if value.moment.Some? { createdAt := value.moment.value; }
      } else {
        selectValues := selectValues[column := value];
      }
    }
  }

  // ---------------------------------------------------------------------------------------
  // Rows between the two
  // ---------------------------------------------------------------------------------------

  function Encode(codec: Codec, value: Value): Cell
  {
    match value
    case Text(s) => TextCell(s)
    case Number(n) => NumberCell(n)
    case Moment(t) => MomentCell(t)
    case Strings(ss) => BlobCell(codec.marshal(ss))
  }

  /** The cell an insert of the specification leaves in a column; unset columns stay null. */
  function StoredCell(codec: Codec, spec: Spec, column: Column): Cell
  {
    if column == ID then
      if spec.id.Some? then TextCell(spec.id.value) else Null
    else if column in spec.fields then Encode(codec, spec.fields[column])
    else if column in spec.edges && spec.edges[column] != [] then TextCell(spec.edges[column][0])
    else Null
  }

  /** The driver fills a holder and never changes its type. */
  function Fill(holder: Holder, cell: Cell): (r: Holder)
    ensures SameType(holder, r)
  {
    match holder
    case NullString(_) => NullString(if cell.TextCell? then Some(cell.s) else None)
    case NullInt64(_) => NullInt64(if cell.NumberCell? then Some(cell.n) else None)
    case NullTime(_) => NullTime(if cell.MomentCell? then Some(cell.t) else None)
    case RawBytes(_) => RawBytes(if cell.BlobCell? then Some(cell.b) else None)
    case UnknownType(_) => UnknownType(cell)
  }

  /** One row through the two closures that a query installs. Whatever cells the driver brings,
      for whatever column list (repeated and unknown columns included), the holders made for
      the list are of the types the decoder asserts: the one failure left is a block_hashes
      cell that is not JSON, and otherwise every field holds its last non-null occurrence. */
  method DecodeRow(codec: Codec, columns: seq<Column>, cells: seq<Cell>)
      returns (node: ShareFile, err: Option<DecodeError>)
    requires |cells| == |columns|
    ensures fresh(node)
    ensures err.Some? ==> err.value == Unmarshal(BLOCK_HASHES)
    ensures var values := seq(|columns|, i requires 0 <= i < |columns| => Fill(NewHolder(columns[i]), cells[i]));
      && (err.None? <==> forall i :: 0 <= i < |columns| ==> CellError(codec, columns[i], values[i]).None?)
      && (err.None? ==> node.View() == Decoded(codec, columns, values, |columns|, ZERO))
  {
    var holders := ScanValues(columns);
    var values := seq(|columns|, i requires 0 <= i < |columns| => Fill(holders[i], cells[i]));
    assert values == seq(|columns|, i requires 0 <= i < |columns| => Fill(NewHolder(columns[i]), cells[i]));
    node := new ShareFile();
    ghost var k;
    err, k := node.AssignValues(codec, columns, values);
  }

  /** The fields a column list covers; the others keep their zero value. */
  function Restrict(f: Fields, columns: seq<Column>): Fields
  {
    Fields(
      if ID in columns then f.id else "",
      if USER_ID in columns then f.userID else "",
      if SHARE_ID in columns then f.shareID else "",
      if STORAGE_NAME in columns then f.storageName else "",
      if VIRTUAL_PATH in columns then f.virtualPath else "",
      if SIZE_BYTES in columns then f.sizeBytes else 0,
      if MTIME in columns then f.mtime else 0,
      if BLAKE3 in columns then f.blake3 else "",
      if BLOCK_SIZE in columns then f.blockSize else 0,
      if BLOCK_HASHES in columns then f.blockHashes else [],
      if CREATED_AT in columns then f.createdAt else 0)
  }

  /** A row, seen through a column list, as the driver hands it to the decoder. */
  ghost predicate RowOf(codec: Codec, spec: Spec, columns: seq<Column>, values: seq<Holder>)
  {
    && |values| == |columns|
    && forall i :: 0 <= i < |columns| ==>
         values[i] == Fill(NewHolder(columns[i]), StoredCell(codec, spec, columns[i]))
  }

  // A column that holds one value wherever the list repeats it decodes to that value.

  lemma {:induction false} TextField(codec: Codec, spec: Spec, columns: seq<Column>, values: seq<Holder>, k: nat,
                                     field: Column, v: Option<string>)
    requires RowOf(codec, spec, columns, values) && k <= |columns| && IsTextColumn(field)
    requires StoredCell(codec, spec, field) == if v.Some? then TextCell(v.value) else Null
    ensures LastText(columns, values, k, field, "") == if field in columns[..k] then v.GetOr("") else ""
  {
    if k > 0 {
      TextField(codec, spec, columns, values, k - 1, field, v);
      assert columns[..k] == columns[..k - 1] + [columns[k - 1]];
    }
  }

  lemma {:induction false} NumberField(codec: Codec, spec: Spec, columns: seq<Column>, values: seq<Holder>, k: nat,
                                       field: Column, v: Option<Int64>)
    requires RowOf(codec, spec, columns, values) && k <= |columns| && IsNumberColumn(field)
    requires StoredCell(codec, spec, field) == if v.Some? then NumberCell(v.value) else Null
    ensures LastNumber(columns, values, k, field, 0) == if field in columns[..k] then v.GetOr(0) else 0
  {
    if k > 0 {
      NumberField(codec, spec, columns, values, k - 1, field, v);
      assert columns[..k] == columns[..k - 1] + [columns[k - 1]];
    }
  }

  lemma {:induction false} MomentField(codec: Codec, spec: Spec, columns: seq<Column>, values: seq<Holder>, k: nat,
                                       field: Column, v: Option<int>)
    requires RowOf(codec, spec, columns, values) && k <= |columns| && IsMomentColumn(field)
    requires StoredCell(codec, spec, field) == if v.Some? then MomentCell(v.value) else Null
    ensures LastMoment(columns, values, k, field, 0) == if field in columns[..k] then v.GetOr(0) else 0
  {
    if k > 0 {
      MomentField(codec, spec, columns, values, k - 1, field, v);
      assert columns[..k] == columns[..k - 1] + [columns[k - 1]];
    }
  }

  lemma {:induction false} StringsField(codec: Codec, spec: Spec, columns: seq<Column>, values: seq<Holder>, k: nat,
                                        v: Option<seq<string>>)
    requires Inverse(codec) && RowOf(codec, spec, columns, values) && k <= |columns|
    requires StoredCell(codec, spec, BLOCK_HASHES) == if v.Some? then BlobCell(codec.marshal(v.value)) else Null
    ensures LastStrings(codec, columns, values, k, []) == if BLOCK_HASHES in columns[..k] then v.GetOr([]) else []
  {
    if k > 0 {
      StringsField(codec, spec, columns, values, k - 1, v);
      assert columns[..k] == columns[..k - 1] + [columns[k - 1]];
    }
  }

  /** The entity that a draft describes: what it was told, field by field, and zero otherwise. */
  function Told(d: Draft): Fields
  {
    Fields(
      d.id.GetOr(""), d.owner.GetOr(""), d.share.GetOr(""), d.storageName.GetOr(""), d.virtualPath.GetOr(""),
      d.sizeBytes.GetOr(0), d.mtime.GetOr(0), d.blake3.GetOr(""), d.blockSize.GetOr(0), d.blockHashes.GetOr([]),
      d.createdAt.GetOr(0))
  }

  function TextOrNull(v: Option<string>): Cell
  {
    if v.Some? then TextCell(v.value) else Null
  }

  function NumberOrNull(v: Option<Int64>): Cell
  {
    if v.Some? then NumberCell(v.value) else Null
  }

  function MomentOrNull(v: Option<int>): Cell
  {
    if v.Some? then MomentCell(v.value) else Null
  }

  /** Both the entity and the stored row of a draft have the draft's own value in every column, and
      nothing where it has none. */
  lemma {:induction false} SpecMatchesDraft(codec: Codec, d: Draft)
    ensures CreateSpec(d).0 == Told(d) && CreateSpec(d).1.id == d.id
    ensures var spec := CreateSpec(d).1;
      && StoredCell(codec, spec, ID) == TextOrNull(d.id)
      && StoredCell(codec, spec, USER_ID) == TextOrNull(d.owner)
      && StoredCell(codec, spec, SHARE_ID) == TextOrNull(d.share)
      && StoredCell(codec, spec, STORAGE_NAME) == TextOrNull(d.storageName)
      && StoredCell(codec, spec, VIRTUAL_PATH) == TextOrNull(d.virtualPath)
      && StoredCell(codec, spec, SIZE_BYTES) == NumberOrNull(d.sizeBytes)
      && StoredCell(codec, spec, MTIME) == MomentOrNull(d.mtime)
      && StoredCell(codec, spec, BLAKE3) == TextOrNull(d.blake3)
      && StoredCell(codec, spec, BLOCK_SIZE) == NumberOrNull(d.blockSize)
      && StoredCell(codec, spec, BLOCK_HASHES) ==
         (if d.blockHashes.Some? then BlobCell(codec.marshal(d.blockHashes.value)) else Null)
      && StoredCell(codec, spec, CREATED_AT) == MomentOrNull(d.createdAt)
  {
  }

  /** No cell of a row that create wrote fails to decode. */
  lemma {:induction false} NoCellFails(codec: Codec, d: Draft, columns: seq<Column>, values: seq<Holder>, i: nat)
    requires Inverse(codec)
    requires RowOf(codec, CreateSpec(d).1, columns, values) && i < |columns|
    ensures CellError(codec, columns[i], values[i]).None?
  {
    CellErrorIs(codec, columns[i], values[i]);
    if columns[i] == BLOCK_HASHES {
      HashesCell(codec, d);
    }
  }

  lemma {:induction false} HashesCell(codec: Codec, d: Draft)
    ensures StoredCell(codec, CreateSpec(d).1, BLOCK_HASHES) ==
            if d.blockHashes.Some? then BlobCell(codec.marshal(d.blockHashes.value)) else Null
  {
    SpecMatchesDraft(codec, d);
  }

  /** Reading back what create wrote: for every draft, complete or not, and every column list,
      decoding the stored row over an empty entity fails nowhere and rebuilds the entity that
      create handed back, and that the draft describes, as far as the list covers it. */
  lemma {:induction false} RoundTrip(codec: Codec, d: Draft, columns: seq<Column>, values: seq<Holder>)
    requires Inverse(codec)
    requires RowOf(codec, CreateSpec(d).1, columns, values)
    ensures forall i :: 0 <= i < |columns| ==> CellError(codec, columns[i], values[i]).None?
    ensures Decoded(codec, columns, values, |columns|, ZERO) == Restrict(CreateSpec(d).0, columns)
    ensures Decoded(codec, columns, values, |columns|, ZERO) == Restrict(Told(d), columns)
  {
    forall i | 0 <= i < |columns| ensures CellError(codec, columns[i], values[i]).None? {
      NoCellFails(codec, d, columns, values, i);
    }
    SpecMatchesDraft(codec, d);
    var spec, n := CreateSpec(d).1, |columns|;
    assert columns[..n] == columns;
    TextField(codec, spec, columns, values, n, ID, d.id);
    TextField(codec, spec, columns, values, n, USER_ID, d.owner);
    TextField(codec, spec, columns, values, n, SHARE_ID, d.share);
    TextField(codec, spec, columns, values, n, STORAGE_NAME, d.storageName);
    TextField(codec, spec, columns, values, n, VIRTUAL_PATH, d.virtualPath);
    NumberField(codec, spec, columns, values, n, SIZE_BYTES, d.sizeBytes);
    MomentField(codec, spec, columns, values, n, MTIME, d.mtime);
    TextField(codec, spec, columns, values, n, BLAKE3, d.blake3);
    NumberField(codec, spec, columns, values, n, BLOCK_SIZE, d.blockSize);
    StringsField(codec, spec, columns, values, n, d.blockHashes);
    MomentField(codec, spec, columns, values, n, CREATED_AT, d.createdAt);
  }

  /** A draft that passes the checks inserts a row without nulls exactly when it has an id,
      which the checks do not ask for: only the defaults see to it. */
  lemma {:induction false} CheckedRowIsComplete(codec: Codec, rules: Rules, d: Draft)
    requires Check(rules, d).None?
    ensures (forall c: Column :: ID <= c <= CREATED_AT ==> StoredCell(codec, CreateSpec(d).1, c) != Null)
            <==> d.id.Some?
  {
    SpecMatchesDraft(codec, d);
    assert StoredCell(codec, CreateSpec(d).1, ID) == Null <==> d.id.None?;
  }
}
