/** A gift one user sends another (UserGift): the gift-queue row mapping, the
    queries that read gifts, sending a gift (queue insert, then log insert) and
    accepting one. The data source is passed in explicitly; date formatting is a
    parameter. */
module UserGifts {
  import opened Strings
  import opened PhpValues
  import opened Options
  import opened Exceptions
  import opened MySqlDialect
  import opened WhereClauses
  import opened SetValueOperations
  import opened UpdateQueryResults
  import opened OperationResults
  import opened SelectQueries
  import opened UpdateQueries
  import opened MySql
  import QueryExecution

  const GiftQueueTable := "tblUserGiftQueue"
  const GiftLogTable := "tblUserGiftLog"

  /** The columns of the gift queue that the gift queries select. */
  const GiftColumns: seq<string> := ["fromUserID", "toUserID", "giftDate", "giftTime", "giftSendType", "giftAccepted"]

  const GiftSelectList := "ugq.fromUserID,ugq.toUserID," + "ugq.giftDate,ugq.giftTime," + "ugq.giftSendType,ugq.giftAccepted"

  // ---------------------------------------------------------------------------
  // The row mapping

  /** The property values of a UserGift. */
  datatype GiftData = GiftData(
    fromUserID: int, toUserID: int, giftDate: Value, giftTime: int, giftSendType: int, giftAccepted: int,
    userEmail: Value, userFullName: Value, giftTypeName: Value)

  /** A column that is copied only when the row sets it; otherwise the default "". */
  function Optional(row: Row, column: string): Value
  {
    if IsSet(row, column) then Lookup(row, column) else Str("")
  }

  /** The constructor: the numeric columns cast to int, the date copied, the joined
      user and gift type columns copied only when present. */
  function GiftDataOf(row: Row): GiftData
  {
    GiftData(
      IntCast(Lookup(row, "fromUserID")), IntCast(Lookup(row, "toUserID")), Lookup(row, "giftDate"),
      IntCast(Lookup(row, "giftTime")), IntCast(Lookup(row, "giftSendType")), IntCast(Lookup(row, "giftAccepted")),
      Optional(row, "userEmail"), Optional(row, "userFullName"), Optional(row, "gtName"))
  }

  /** The row a gift would be read back from. */
  function GiftRowOf(g: GiftData): Row
  {
    [Entry("fromUserID", Int(g.fromUserID)), Entry("toUserID", Int(g.toUserID)), Entry("giftDate", g.giftDate),
     Entry("giftTime", Int(g.giftTime)), Entry("giftSendType", Int(g.giftSendType)), Entry("giftAccepted", Int(g.giftAccepted)),
     Entry("userEmail", g.userEmail), Entry("userFullName", g.userFullName), Entry("gtName", g.giftTypeName)]
  }

  /** Reading a gift back from its own row loses nothing, provided its optional
      columns are not null (a null column is not set, and reads back as ""). */
  lemma GiftRowRoundTrip(g: GiftData)
    requires g.userEmail != Null && g.userFullName != Null && g.giftTypeName != Null
    ensures GiftDataOf(GiftRowOf(g)) == g
  {
    var row := GiftRowOf(g);
    assert DistinctKeys(row);
    LookupDistinct(row, 0); LookupDistinct(row, 1); LookupDistinct(row, 2);
    LookupDistinct(row, 3); LookupDistinct(row, 4); LookupDistinct(row, 5);
    LookupDistinct(row, 6); LookupDistinct(row, 7); LookupDistinct(row, 8);
  }

  /** A row without the joined columns (as getUserGiftInfo selects it) leaves the
      user and gift type fields at "". */
  lemma PlainRowKeepsDefaults(row: Row)
    requires !HasKey(row, "userEmail") && !HasKey(row, "userFullName") && !HasKey(row, "gtName")
    ensures var g := GiftDataOf(row);
      g.userEmail == Str("") && g.userFullName == Str("") && g.giftTypeName == Str("")
  {
  }

  // ---------------------------------------------------------------------------
  // Sending and accepting

  /** The values sendUserGift inserts, in column order. */
  function GiftFieldValues(fromUserID: Value, toUserID: Value, timestamp: Value, giftTypeID: Value, formatDate: Value -> string): seq<Entry>
  {
    [Entry("fromUserID", fromUserID), Entry("toUserID", toUserID), Entry("giftDate", Str(formatDate(timestamp))),
     Entry("giftTime", timestamp), Entry("giftSendType", giftTypeID)]
  }

  /** CreateInsert(table)->SetMulti(values). */
  function GiftInsert(table: string, fieldValues: seq<Entry>): QueryDescriptor
  {
    QueryDescriptor("INSERT", table, ValueSets(fieldValues), [], Null)
  }

  /** sendUserGift: insert into the queue; only when that succeeds, insert the same
      values into the log. The result is the queue insert's; an exception from
      either insert propagates. */
  function SendGiftSpec(s: ConnState, srv: Server, config: Value, fieldValues: seq<Entry>): (ConnState, Outcome<OperationResult>)
  {
    var (s1, opRes) := ExecuteUpdateSpec(s, srv, config, GiftInsert(GiftQueueTable, fieldValues));
    if opRes.Throws? then (s1, Throws(opRes.ex))
    else if opRes.value.success == 0 then (s1, Ok(FromUpdateQueryResult(opRes.value)))
    else
      var (s2, logRes) := ExecuteUpdateSpec(s1, srv, config, GiftInsert(GiftLogTable, fieldValues));
      if logRes.Throws? then (s2, Throws(logRes.ex)) else (s2, Ok(FromUpdateQueryResult(opRes.value)))
  }

  /** The log insert runs only after a successful queue insert and writes the same
      columns; the returned result reflects the queue insert alone. */
  lemma SendGiftLogFollowsQueue(s: ConnState, srv: Server, config: Value, fieldValues: seq<Entry>)
    ensures var (s1, opRes) := ExecuteUpdateSpec(s, srv, config, GiftInsert(GiftQueueTable, fieldValues));
      var (s2, r) := SendGiftSpec(s, srv, config, fieldValues);
      (opRes.Throws? || opRes.value.success == 0 ==> s2 == s1)
      && (opRes.Ok? && opRes.value.success != 0 ==> s2 == ExecuteUpdateSpec(s1, srv, config, GiftInsert(GiftLogTable, fieldValues)).0)
      && (r.Ok? ==> opRes.Ok? && r.value == FromUpdateQueryResult(opRes.value))
      && (r.Ok? ==> (r.value.success <==> opRes.value.success != 0))
    ensures GiftInsert(GiftLogTable, fieldValues) == GiftInsert(GiftQueueTable, fieldValues).(tableName := GiftLogTable)
  {
  }

  /** The columns a gift is sent with, in order, and what goes in each. */
  lemma SentColumns(fromUserID: Value, toUserID: Value, timestamp: Value, giftTypeID: Value, formatDate: Value -> string)
    ensures var d := GiftInsert(GiftQueueTable, GiftFieldValues(fromUserID, toUserID, timestamp, giftTypeID, formatDate));
      |d.fieldSet| == 5
      && d.fieldSet[0].field == "fromUserID" && d.fieldSet[0].value == fromUserID
      && d.fieldSet[1].field == "toUserID" && d.fieldSet[1].value == toUserID
      && d.fieldSet[2].field == "giftDate" && d.fieldSet[2].value == Str(formatDate(timestamp))
      && d.fieldSet[3].field == "giftTime" && d.fieldSet[3].value == timestamp
      && d.fieldSet[4].field == "giftSendType" && d.fieldSet[4].value == giftTypeID
      && Consistent(d)
  {
  }

  /** acceptGift's UPDATE: the pending gift identified by sender, receiver and date
      is marked accepted. */
  function AcceptDescriptor(g: GiftData): QueryDescriptor
  {
    QueryDescriptor("UPDATE", GiftQueueTable,
      [SetValueOperation("giftAccepted", Int(1), false)],
      [WhereSpec("value", "fromUserID", Int(g.fromUserID), "="), WhereSpec("value", "toUserID", Int(g.toUserID), "="),
       WhereSpec("value", "giftDate", g.giftDate, "="), WhereSpec("value", "giftAccepted", Int(0), "=")],
      Null)
  }

  /** The UPDATE matches only a still pending gift and does not depend on the
      object's own accepted flag. */
  lemma AcceptTargetsPendingGift(g: GiftData, accepted: int)
    ensures AcceptDescriptor(g) == AcceptDescriptor(g.(giftAccepted := accepted))
    ensures var d := AcceptDescriptor(g);
      Consistent(d) && |d.fieldSet| == 1 && d.fieldSet[0].value == Int(1)
      && (forall w :: w in d.fieldWhere ==> w.kind == "value" && w.operator == "=")
      && WhereSpec("value", "giftAccepted", Int(0), "=") in d.fieldWhere
  {
  }

  // ---------------------------------------------------------------------------
  // Queries

  /** Marker-free pieces of the gift queries (each checked on its own, then joined). */
  lemma SelectListHasNoMarker()
    ensures Marker !in "SELECT " + GiftSelectList
  {
    assert Marker !in "ugq.fromUserID,ugq.toUserID,";
    assert Marker !in "ugq.giftDate,ugq.giftTime,";
    assert Marker !in "ugq.giftSendType,ugq.giftAccepted";
  }

  const GiftInfoFrom := " FROM tblUserGiftQueue AS ugq" + " WHERE ugq.fromUserID="
  const GiftInfoHead := "SELECT " + GiftSelectList + GiftInfoFrom
  const GiftInfoSql := GiftInfoHead + "?" + " AND ugq.toUserID=" + "?" + " AND ugq.giftDate=" + "?"

  /** getUserGiftInfo's three markers take sender, receiver and date in that order. */
  lemma GiftInfoBindsInOrder(escape: Value -> string, fromUserID: Value, toUserID: Value, date: Value)
    ensures CompileBindsFixed(escape, GiftInfoSql, [fromUserID, toUserID, date]) ==
      GiftInfoHead + escape(fromUserID) + " AND ugq.toUserID=" + escape(toUserID) + " AND ugq.giftDate=" + escape(date)
  {
    SelectListHasNoMarker();
    assert Marker !in GiftInfoFrom;
    assert Marker !in GiftInfoHead;
    assert GiftInfoSql == GiftInfoHead + [Marker] + " AND ugq.toUserID=" + [Marker] + " AND ugq.giftDate=" + [Marker] + "";
    ThreeMarkersBound(escape, GiftInfoHead, " AND ugq.toUserID=", " AND ugq.giftDate=", "", [fromUserID, toUserID, date]);
  }

  const GiftQueueColumns := ",u.userEmail,u.userFullName,gt.gtName" + " FROM tblUserGiftQueue AS ugq"
  const GiftQueueJoins := " INNER JOIN tblUser AS u" + " ON ugq.fromUserID=u.userID"
    + " INNER JOIN tblGiftType AS gt" + " ON ugq.giftSendType=gt.gtID"
  const GiftQueueHead := "SELECT " + GiftSelectList + GiftQueueColumns + GiftQueueJoins + " WHERE ugq.toUserID="
  const GiftQueueMiddle := " AND ugq.giftAccepted="
  const GiftQueueTail := " AND ugq.giftDate > '%s'" + " AND gt.gtStatus=1"

  /** getUserGiftQueue as written: two markers, and the date compared with the
      literal text '%s'. */
  const GiftQueueSql := GiftQueueHead + "?" + GiftQueueMiddle + "?" + GiftQueueTail

  lemma ColumnsHaveNoMarker()
    ensures Marker !in GiftQueueColumns
  {
    assert Marker !in ",u.userEmail,u.userFullName,gt.gtName";
    assert Marker !in " FROM tblUserGiftQueue AS ugq";
  }

  lemma JoinsHaveNoMarker()
    ensures Marker !in GiftQueueJoins
  {
    assert Marker !in " INNER JOIN tblUser AS u";
    assert Marker !in " ON ugq.fromUserID=u.userID";
    assert Marker !in " INNER JOIN tblGiftType AS gt";
    assert Marker !in " ON ugq.giftSendType=gt.gtID";
  }

  lemma GiftQueueHeadHasNoMarker()
    ensures Marker !in GiftQueueHead
  {
    SelectListHasNoMarker();
    ColumnsHaveNoMarker();
    JoinsHaveNoMarker();
  }

  /** The query as written binds the receiver and the 0 flag and drops the date: two
      different cut-off dates give the same SQL, which still compares the gift date
      with the text '%s'. */
  lemma GiftQueueDropsDate(escape: Value -> string, toUserID: Value, date1: string, date2: string)
    ensures CompileBindsFixed(escape, GiftQueueSql, [toUserID, Int(0), Str(date1)]) ==
      GiftQueueHead + escape(toUserID) + GiftQueueMiddle + escape(Int(0)) + GiftQueueTail
    ensures CompileBindsFixed(escape, GiftQueueSql, [toUserID, Int(0), Str(date1)]) ==
      CompileBindsFixed(escape, GiftQueueSql, [toUserID, Int(0), Str(date2)])
    ensures GiftQueueTail[20..24] == "'%s'"
  {
    GiftQueueHeadHasNoMarker();
    assert Marker !in GiftQueueMiddle;
    assert Marker !in " AND ugq.giftDate > '%s'";
    assert Marker !in " AND gt.gtStatus=1";
    assert GiftQueueSql == GiftQueueHead + [Marker] + GiftQueueMiddle + [Marker] + GiftQueueTail;
    TwoMarkersBound(escape, GiftQueueHead, GiftQueueMiddle, GiftQueueTail, [toUserID, Int(0), Str(date1)]);
    TwoMarkersBound(escape, GiftQueueHead, GiftQueueMiddle, GiftQueueTail, [toUserID, Int(0), Str(date2)]);
  }

  /** The query as evidently intended: a third marker for the cut-off date. */
  const GiftQueueDateTest := " AND ugq.giftDate > "
  const GiftQueueSqlFixed := GiftQueueHead + "?" + GiftQueueMiddle + "?" + GiftQueueDateTest + "?" + " AND gt.gtStatus=1"

  /** With the third marker every bind is used: the date lands in the comparison. */
  lemma GiftQueueFixedBindsDate(escape: Value -> string, toUserID: Value, date: string)
    ensures CompileBindsFixed(escape, GiftQueueSqlFixed, [toUserID, Int(0), Str(date)]) ==
      GiftQueueHead + escape(toUserID) + GiftQueueMiddle + escape(Int(0)) + GiftQueueDateTest + escape(Str(date)) + " AND gt.gtStatus=1"
  {
    GiftQueueHeadHasNoMarker();
    assert Marker !in GiftQueueMiddle;
    assert Marker !in GiftQueueDateTest;
    assert Marker !in " AND gt.gtStatus=1";
    assert GiftQueueSqlFixed == GiftQueueHead + [Marker] + GiftQueueMiddle + [Marker] + GiftQueueDateTest + [Marker] + " AND gt.gtStatus=1";
    ThreeMarkersBound(escape, GiftQueueHead, GiftQueueMiddle, GiftQueueDateTest, " AND gt.gtStatus=1", [toUserID, Int(0), Str(date)]);
  }

  // ---------------------------------------------------------------------------
  // The object

  class UserGift {
    var fromUserID: int
    var toUserID: int
    var giftDate: Value
    var giftTime: int
    var giftSendType: int
    var giftAccepted: int
    var userEmail: Value
    var userFullName: Value
    var giftTypeName: Value

    function Data(): GiftData
      reads this
    {
      GiftData(fromUserID, toUserID, giftDate, giftTime, giftSendType, giftAccepted, userEmail, userFullName, giftTypeName)
    }

    /** new UserGift($row): casts the numeric columns to int; the joined columns are
        copied only when set. */
    constructor(row: Row)
      ensures Data() == GiftDataOf(row)
      ensures fromUserID == IntCast(Lookup(row, "fromUserID")) && toUserID == IntCast(Lookup(row, "toUserID"))
      ensures giftAccepted == IntCast(Lookup(row, "giftAccepted"))
      ensures userEmail == (if IsSet(row, "userEmail") then Lookup(row, "userEmail") else Str(""))
    {
      fromUserID := IntCast(Lookup(row, "fromUserID"));
      toUserID := IntCast(Lookup(row, "toUserID"));
      giftDate := Lookup(row, "giftDate");
      giftTime := IntCast(Lookup(row, "giftTime"));
      giftSendType := IntCast(Lookup(row, "giftSendType"));
      giftAccepted := IntCast(Lookup(row, "giftAccepted"));
      userEmail := Str("");
      userFullName := Str("");
      giftTypeName := Str("");
      if IsSet(row, "userEmail") {
        userEmail := Lookup(row, "userEmail");
      }
      if IsSet(row, "userFullName") {
        userFullName := Lookup(row, "userFullName");
      }
      if IsSet(row, "gtName") {
        giftTypeName := Lookup(row, "gtName");
      }
    }

    /** getUserGiftInfo: the gift with that sender, receiver and date, or null. */
    static method GetUserGiftInfo(fromUserID: Value, toUserID: Value, date: Value, dataSource: MySqlDataSource)
      returns (r: Outcome<UserGift?>)
      modifies dataSource
      ensures var (s, o) := SqlSelect(old(dataSource.State()), dataSource.server, dataSource.config, GiftInfoSql, [fromUserID, toUserID, date]);
        dataSource.State() == s
        && (r.Throws? <==> o.Throws?) && (o.Throws? ==> r == Throws(o.ex))
        && (o.Ok? ==> var record := RecordOf(o.value, Null);
             (r.value == null <==> IsEmpty(record) || !record.Arr?)
             && (r.value != null ==> fresh(r.value) && r.value.Data() == GiftDataOf(record.entries)))
    {
      var selectQuery := SelectDataQuery.Create(GiftInfoSql, [fromUserID, toUserID, date], -1, -1);
      var dataRow := QueryExecution.GetRecord(selectQuery, dataSource);
      if dataRow.Throws? {
        return Throws(dataRow.ex);
      }
      if IsEmpty(dataRow.value) || !dataRow.value.Arr? {
        return Ok(null);
      }
      var gift := new UserGift(dataRow.value.entries);
      return Ok(gift);
    }

    /** getUserGiftQueue, given the cut-off date text (seven days ago): one gift per
        row. It runs the corrected query, whose third marker takes the date. */
    static method GetUserGiftQueue(toUserID: Value, weekAgo: string, dataSource: MySqlDataSource)
      returns (r: Outcome<seq<UserGift>>)
      modifies dataSource
      ensures var (s, o) := SqlSelect(old(dataSource.State()), dataSource.server, dataSource.config, GiftQueueSqlFixed, [toUserID, Int(0), Str(weekAgo)]);
        dataSource.State() == s
        && (r.Throws? <==> o.Throws?) && (o.Throws? ==> r == Throws(o.ex))
        && (o.Ok? ==> var rows := RecordsetOf(o.value);
             |r.value| == |rows|
             && forall k :: 0 <= k < |rows| ==> fresh(r.value[k]) && r.value[k].Data() == GiftDataOf(rows[k]))
    {
      var selectQuery := SelectDataQuery.Create(GiftQueueSqlFixed, [toUserID, Int(0), Str(weekAgo)], -1, -1);
      var dataRowSet := QueryExecution.GetRecordset(selectQuery, dataSource);
      if dataRowSet.Throws? {
        return Throws(dataRowSet.ex);
      }
      var objSet := GiftsOf(dataRowSet.value);
      return Ok(objSet);
    }

    /** GetObjectSet's loop: a new gift for each row, in order. */
    static method GiftsOf(rows: seq<Row>) returns (gifts: seq<UserGift>)
      ensures |gifts| == |rows|
      ensures forall k :: 0 <= k < |rows| ==> fresh(gifts[k]) && gifts[k].Data() == GiftDataOf(rows[k])
    {
      gifts := [];
      var i := 0;
      while i < |rows|
        invariant 0 <= i <= |rows|
        invariant |gifts| == i
        invariant forall k :: 0 <= k < i ==> fresh(gifts[k])
        invariant forall k :: 0 <= k < i ==> gifts[k].Data() == GiftDataOf(rows[k])
      {
        var gift := new UserGift(rows[i]);
        gifts := gifts + [gift];
        i := i + 1;
      }
    }

    /** sendUserGift, given the date formatting of the timestamp. */
    static method SendUserGift(fromUserID: Value, toUserID: Value, timestamp: Value, giftTypeID: Value,
                               formatDate: Value -> string, dataSource: MySqlDataSource)
      returns (r: Outcome<OperationResult>)
      modifies dataSource
      ensures (dataSource.State(), r) == SendGiftSpec(old(dataSource.State()), dataSource.server, dataSource.config,
        GiftFieldValues(fromUserID, toUserID, timestamp, giftTypeID, formatDate))
    {
      var fieldValues := GiftFieldValues(fromUserID, toUserID, timestamp, giftTypeID, formatDate);
      var queueInsert := UpdateDataQuery.CreateInsert(GiftQueueTable);
      var accepted := queueInsert.SetMulti(Arr(fieldValues));
      assert queueInsert.Descriptor() == GiftInsert(GiftQueueTable, fieldValues);
      var opRes := QueryExecution.ExecuteUpdate(queueInsert, dataSource);
      if opRes.Throws? {
        return Throws(opRes.ex);
      }
      if opRes.value.success != 0 {
        var logInsert := UpdateDataQuery.CreateInsert(GiftLogTable);
        accepted := logInsert.SetMulti(Arr(fieldValues));
        assert logInsert.Descriptor() == GiftInsert(GiftLogTable, fieldValues);
        var logRes := QueryExecution.ExecuteUpdate(logInsert, dataSource);
        if logRes.Throws? {
          return Throws(logRes.ex);
        }
      }
      return Ok(FromUpdateQueryResult(opRes.value));
    }

    /** acceptGift: the object is marked accepted first, whatever the database then
        reports or throws. */
    method AcceptGift(dataSource: MySqlDataSource) returns (r: Outcome<OperationResult>)
      modifies this, dataSource
      ensures Data() == old(Data()).(giftAccepted := 1)
      ensures var (s, o) := ExecuteUpdateSpec(old(dataSource.State()), dataSource.server, dataSource.config, AcceptDescriptor(old(Data())));
        dataSource.State() == s && r == MapOk(o, FromUpdateQueryResult)
    {
      giftAccepted := 1;
      var dbQuery := UpdateDataQuery.CreateUpdate(GiftQueueTable);
      var accepted := dbQuery.Where("fromUserID", Int(fromUserID), "=");
      accepted := dbQuery.Where("toUserID", Int(toUserID), "=");
      accepted := dbQuery.Where("giftDate", giftDate, "=");
      accepted := dbQuery.Where("giftAccepted", Int(0), "=");
      accepted := dbQuery.Set("giftAccepted", Int(1));
      assert dbQuery.Descriptor() == AcceptDescriptor(old(Data()));
      var dbRes := QueryExecution.ExecuteUpdate(dbQuery, dataSource);
      r := MapOk(dbRes, FromUpdateQueryResult);
    }
  }
}
