/** A player (UserInfo): the row mapping of tblUser, its JSON form, saving it, the
    lookup by e-mail and the two gift clean-up deletes. The data source is passed
    in explicitly; md5 and today's date are parameters. */
module Users {
  import opened PhpValues
  import opened Exceptions
  import opened MySqlDialect
  import opened WhereClauses
  import opened SetValueOperations
  import opened UpdateQueryResults
  import opened OperationResults
  import opened SelectQueries
  import opened UpdateQueries
  import opened MySql
  import opened JsonConvertible
  import opened UserGifts
  import QueryExecution

  const UserTable := "tblUser"

  /** The columns of tblUser that the user queries name. */
  const UserColumns: seq<string> := ["userID", "userUID", "userEmail", "userPassword", "userFullName",
    "userCoin", "userLifeCount", "userItems", "userStatus"]

  // ---------------------------------------------------------------------------
  // The row mapping

  /** The property values of a UserInfo. */
  datatype UserData = UserData(
    userID: int, userUID: Value, userEmail: Value, userPassword: Value, userFullName: Value,
    userCoin: int, userLifeCount: int, userItems: Value)

  /** The constructor: userID cast to int; uid, e-mail and full name copied as they
      are; the password only when the row sets it; coin, life count and items only
      when the row sets userCoin. */
  function UserDataOf(row: Row): UserData
  {
    var hasInventory := IsSet(row, "userCoin");
    UserData(
      IntCast(Lookup(row, "userID")), Lookup(row, "userUID"), Lookup(row, "userEmail"),
      if IsSet(row, "userPassword") then Lookup(row, "userPassword") else Str(""),
      Lookup(row, "userFullName"),
      if hasInventory then IntCast(Lookup(row, "userCoin")) else 0,
      if hasInventory then IntCast(Lookup(row, "userLifeCount")) else 0,
      if hasInventory then Lookup(row, "userItems") else Str(""))
  }

  /** The public properties of a user, in declaration order; also the row it would
      be read back from. */
  function Props(u: UserData): seq<Entry>
  {
    [Entry("userID", Int(u.userID)), Entry("userUID", u.userUID), Entry("userEmail", u.userEmail),
     Entry("userPassword", u.userPassword), Entry("userFullName", u.userFullName),
     Entry("userCoin", Int(u.userCoin)), Entry("userLifeCount", Int(u.userLifeCount)), Entry("userItems", u.userItems)]
  }

  lemma PropsDistinct(u: UserData)
    ensures DistinctKeys(Props(u))
  {
  }

  /** Reading a user back from its own properties loses nothing, provided the
      password is not null (a null password is not set, and reads back as ""). */
  lemma UserRowRoundTrip(u: UserData)
    requires u.userPassword != Null
    ensures UserDataOf(Props(u)) == u
  {
    var row := Props(u);
    PropsDistinct(u);
    LookupDistinct(row, 0); LookupDistinct(row, 1); LookupDistinct(row, 2); LookupDistinct(row, 3);
    LookupDistinct(row, 4); LookupDistinct(row, 5); LookupDistinct(row, 6); LookupDistinct(row, 7);
  }

  /** A row without userCoin (the simple select list) leaves the password, coin,
      life count and items at their defaults when it also lacks a password. */
  lemma SimpleRowKeepsDefaults(row: Row)
    requires !IsSet(row, "userCoin")
    ensures var u := UserDataOf(row);
      u.userCoin == 0 && u.userLifeCount == 0 && u.userItems == Str("")
    ensures !IsSet(row, "userPassword") ==> UserDataOf(row).userPassword == Str("")
  {
  }

  // ---------------------------------------------------------------------------
  // jsonSerialize

  /** The defaults jsonSerialize compares against: 0 for the numbers, "" for the
      texts. */
  const UserDefaults: seq<Entry> := [
    Entry("userID", Int(0)), Entry("userUID", Str("")), Entry("userEmail", Str("")),
    Entry("userPassword", Str("")), Entry("userFullName", Str("")),
    Entry("userCoin", Int(0)), Entry("userLifeCount", Int(0)), Entry("userItems", Str(""))]

  function UserJson(u: UserData): Serialized
  {
    SerializeDefault(Props(u), UserDefaults)
  }

  /** A property appears in the JSON exactly when it differs from its default, and
      then with its own value. */
  lemma UserJsonKeyIff(u: UserData, k: int)
    requires 0 <= k < 8
    ensures HasKey(SerializedEntries(UserJson(u)), UserDefaults[k].key) <==> Props(u)[k].val != UserDefaults[k].val
    ensures HasKey(SerializedEntries(UserJson(u)), UserDefaults[k].key) ==>
      Lookup(SerializedEntries(UserJson(u)), UserDefaults[k].key) == Props(u)[k].val
  {
    DefaultsMatchProps(u);
    PropsDistinct(u);
    LookupDistinct(Props(u), k);
    LookupDistinct(UserDefaults, k);
    assert HasKey(UserDefaults, UserDefaults[k].key);
    NonDefaultIff(Props(u), UserDefaults, UserDefaults[k].key);
  }

  /** The defaults list every property once, in declaration order. */
  lemma DefaultsMatchProps(u: UserData)
    ensures DistinctKeys(UserDefaults) && |UserDefaults| == |Props(u)| == 8
    ensures forall k :: 0 <= k < 8 ==> Props(u)[k].key == UserDefaults[k].key
  {
  }

  /** The stored password hash is emitted whenever it is non-empty. */
  lemma PasswordSerializedIff(u: UserData)
    ensures HasKey(SerializedEntries(UserJson(u)), "userPassword") <==> u.userPassword != Str("")
  {
    UserJsonKeyIff(u, 3);
  }

  /** A user read without the inventory columns serializes no coin, life count or
      items. */
  lemma SimpleRowOmitsInventory(row: Row)
    requires !IsSet(row, "userCoin")
    ensures var entries := SerializedEntries(UserJson(UserDataOf(row)));
      !HasKey(entries, "userCoin") && !HasKey(entries, "userLifeCount") && !HasKey(entries, "userItems")
  {
    var u := UserDataOf(row);
    UserJsonKeyIff(u, 5);
    UserJsonKeyIff(u, 6);
    UserJsonKeyIff(u, 7);
  }

  // ---------------------------------------------------------------------------
  // updateUserInfo

  /** The four columns both an insert and an update write. */
  function ProfileSets(u: UserData): seq<SetValueOperation>
  {
    [SetValueOperation("userFullName", u.userFullName, false), SetValueOperation("userCoin", Int(u.userCoin), false),
     SetValueOperation("userLifeCount", Int(u.userLifeCount), false), SetValueOperation("userItems", u.userItems, false)]
  }

  /** updateUserInfo's query: an INSERT with the credentials (the password hashed)
      for a user without an id, an UPDATE of that user's row otherwise. */
  function SaveDescriptor(u: UserData, md5: string -> string): QueryDescriptor
  {
    if u.userID <= 0 then
      QueryDescriptor("INSERT", UserTable,
        [SetValueOperation("userEmail", u.userEmail, false),
         SetValueOperation("userPassword", Str(md5(ToText(u.userPassword))), false),
         SetValueOperation("userUID", u.userUID, false)] + ProfileSets(u),
        [], Null)
    else
      QueryDescriptor("UPDATE", UserTable, ProfileSets(u), [WhereSpec("value", "userID", Int(u.userID), "=")], Null)
  }

  /** The column names a list of SET operations writes, in order. */
  function SetFields(sets: seq<SetValueOperation>): (r: seq<string>)
    ensures |r| == |sets| && forall k :: 0 <= k < |sets| ==> r[k] == sets[k].field
  {
    seq(|sets|, k requires 0 <= k < |sets| => sets[k].field)
  }

  /** An insert exactly for a user without an id, writing e-mail, the hashed
      password, uid and the profile; an update writes only the profile, of the row
      with the user's id. */
  lemma SaveShape(u: UserData, md5: string -> string)
    ensures var d := SaveDescriptor(u, md5);
      Consistent(d) && d.tableName == UserTable
      && (d.queryType == "INSERT" <==> u.userID <= 0)
      && (d.queryType == "UPDATE" <==> u.userID > 0)
      && (u.userID <= 0 ==>
            SetFields(d.fieldSet) == ["userEmail", "userPassword", "userUID", "userFullName", "userCoin", "userLifeCount", "userItems"]
            && d.fieldSet[1].value == Str(md5(ToText(u.userPassword))) && d.fieldSet[3..] == ProfileSets(u))
      && (u.userID > 0 ==>
            SetFields(d.fieldSet) == ["userFullName", "userCoin", "userLifeCount", "userItems"]
            && d.fieldSet == ProfileSets(u) && d.fieldWhere == [WhereSpec("value", "userID", Int(u.userID), "=")])
  {
  }

  /** Saving an existing user never rewrites its credentials, and touches only the
      row with its id. */
  lemma UpdateKeepsCredentials(u: UserData, md5: string -> string)
    requires u.userID > 0
    ensures var d := SaveDescriptor(u, md5);
      forall k :: 0 <= k < |d.fieldSet| ==>
        d.fieldSet[k].field != "userEmail" && d.fieldSet[k].field != "userPassword" && d.fieldSet[k].field != "userUID"
    ensures |SaveDescriptor(u, md5).fieldWhere| == 1
  {
  }

  /** The user after saving: an insert that succeeded adopts the new row's id;
      nothing else changes. */
  function AfterSave(u: UserData, o: Outcome<UpdateQueryResult>): UserData
  {
    if u.userID <= 0 && o.Ok? && o.value.success != 0 then u.(userID := o.value.insertedID) else u
  }

  lemma AfterSaveKeepsProfile(u: UserData, o: Outcome<UpdateQueryResult>)
    ensures AfterSave(u, o) == u.(userID := AfterSave(u, o).userID)
    ensures u.userID > 0 ==> AfterSave(u, o) == u
    ensures o.Throws? || o.value.success == 0 ==> AfterSave(u, o) == u
  {
  }

  // ---------------------------------------------------------------------------
  // The gift clean-up deletes

  /** resetUserSendGifts as written: the user's gifts of today, deleted from tblUser. */
  function ResetDescriptorAsWritten(userID: Value, today: string): QueryDescriptor
  {
    QueryDescriptor("DELETE", UserTable, [],
      [WhereSpec("value", "fromUserID", userID, "="), WhereSpec("value", "giftDate", Str(today), "=")], Null)
  }

  /** expireUnclaimedGifts as written: the pending gifts, deleted from tblUser. */
  function ExpireDescriptorAsWritten(): QueryDescriptor
  {
    QueryDescriptor("DELETE", UserTable, [], [WhereSpec("value", "giftAccepted", Int(0), "=")], Null)
  }

  /** As written, both deletes run against tblUser while every column they filter on
      is a gift-queue column that tblUser does not have. */
  lemma AsWrittenDeletesMissColumns(userID: Value, today: string)
    ensures var r := ResetDescriptorAsWritten(userID, today);
      r.tableName == UserTable
      && forall w :: w in r.fieldWhere ==> w.field !in UserColumns && w.field in GiftColumns
    ensures var e := ExpireDescriptorAsWritten();
      e.tableName == UserTable
      && forall w :: w in e.fieldWhere ==> w.field !in UserColumns && w.field in GiftColumns
  {
  }

  /** resetUserSendGifts, corrected: today's gifts from the user, deleted from the
      gift queue. */
  function ResetDescriptor(userID: Value, today: string): QueryDescriptor
  {
    QueryDescriptor("DELETE", GiftQueueTable, [],
      [WhereSpec("value", "fromUserID", userID, "="), WhereSpec("value", "giftDate", Str(today), "=")], Null)
  }

  /** expireUnclaimedGifts, corrected: the pending gifts, deleted from the gift
      queue. */
  function ExpireDescriptor(): QueryDescriptor
  {
    QueryDescriptor("DELETE", GiftQueueTable, [], [WhereSpec("value", "giftAccepted", Int(0), "=")], Null)
  }

  /** The corrected deletes filter on columns of the table they delete from, never
      delete the whole queue, and expire exactly what acceptGift would still accept:
      its UPDATE requires the same pending flag. */
  lemma CorrectedDeletesTargetGiftQueue(userID: Value, today: string, g: GiftData)
    ensures var r := ResetDescriptor(userID, today);
      Consistent(r) && r.tableName == GiftQueueTable && |r.fieldWhere| == 2
      && forall w :: w in r.fieldWhere ==> w.field in GiftColumns
    ensures var e := ExpireDescriptor();
      Consistent(e) && e.tableName == GiftQueueTable && |e.fieldWhere| == 1
      && e.fieldWhere[0].field in GiftColumns && e.fieldWhere[0] in AcceptDescriptor(g).fieldWhere
    ensures ResetDescriptor(userID, today) == ResetDescriptorAsWritten(userID, today).(tableName := GiftQueueTable)
    ensures ExpireDescriptor() == ExpireDescriptorAsWritten().(tableName := GiftQueueTable)
  {
  }

  // ---------------------------------------------------------------------------
  // getUserInfoByEmail

  const UserSelectList := "u.userID,u.userUID,u.userEmail," + "u.userFullName,u.userCoin," + "u.userLifeCount,u.userItems"
  const ByEmailHead := "SELECT " + UserSelectList + ",u.userPassword FROM tblUser AS u" + " WHERE u.userEmail="
  const ByEmailTail := " AND u.userStatus=1"
  const ByEmailSql := ByEmailHead + "?" + ByEmailTail

  lemma UserSelectListHasNoMarker()
    ensures Marker !in "SELECT " + UserSelectList
  {
    assert Marker !in "u.userID,u.userUID,u.userEmail,";
    assert Marker !in "u.userFullName,u.userCoin,";
    assert Marker !in "u.userLifeCount,u.userItems";
  }

  lemma ByEmailHeadHasNoMarker()
    ensures Marker !in ByEmailHead
  {
    UserSelectListHasNoMarker();
    assert Marker !in ",u.userPassword FROM tblUser AS u";
    assert Marker !in " WHERE u.userEmail=";
  }

  /** The e-mail fills the one marker; only active users match. */
  lemma ByEmailBindsEmail(escape: Value -> string, email: Value)
    ensures CompileBindsFixed(escape, ByEmailSql, [email]) == ByEmailHead + escape(email) + ByEmailTail
  {
    ByEmailHeadHasNoMarker();
    assert Marker !in ByEmailTail;
    assert ByEmailSql == ByEmailHead + [Marker] + ByEmailTail;
    OneMarkerBound(escape, ByEmailHead, ByEmailTail, [email]);
  }

  // ---------------------------------------------------------------------------
  // The object

  class UserInfo {
    var userID: int
    var userUID: Value
    var userEmail: Value
    var userPassword: Value
    var userFullName: Value
    var userCoin: int
    var userLifeCount: int
    var userItems: Value

    function Data(): UserData
      reads this
    {
      UserData(userID, userUID, userEmail, userPassword, userFullName, userCoin, userLifeCount, userItems)
    }

    /** new UserInfo($row). */
    constructor(row: Row)
      ensures Data() == UserDataOf(row)
    {
      userID := IntCast(Lookup(row, "userID"));
      userUID := Lookup(row, "userUID");
      userEmail := Lookup(row, "userEmail");
      userFullName := Lookup(row, "userFullName");
      userPassword := Str("");
      userCoin := 0;
      userLifeCount := 0;
      userItems := Str("");
      if IsSet(row, "userPassword") {
        userPassword := Lookup(row, "userPassword");
      }
      if IsSet(row, "userCoin") {
        userCoin := IntCast(Lookup(row, "userCoin"));
        userLifeCount := IntCast(Lookup(row, "userLifeCount"));
        userItems := Lookup(row, "userItems");
      }
    }

    /** jsonSerialize: the trait's default serialization over the user's defaults. */
    method JsonSerialize() returns (r: Serialized)
      ensures r == UserJson(Data())
    {
      var json := new JsonObject(Props(Data()));
      assert DistinctKeys(UserDefaults);
      r := json.JsonSerializeDefault(UserDefaults);
    }

    /** getUserInfoByEmail: the active user with that e-mail, or null. */
    static method GetUserInfoByEmail(email: Value, dataSource: MySqlDataSource) returns (r: Outcome<UserInfo?>)
      modifies dataSource
      ensures var (s, o) := SqlSelect(old(dataSource.State()), dataSource.server, dataSource.config, ByEmailSql, [email]);
        dataSource.State() == s
        && (r.Throws? <==> o.Throws?) && (o.Throws? ==> r == Throws(o.ex))
        && (o.Ok? ==> var record := RecordOf(o.value, Null);
             (r.value == null <==> IsEmpty(record) || !record.Arr?)
             && (r.value != null ==> fresh(r.value) && r.value.Data() == UserDataOf(record.entries)))
    {
      var selectQuery := SelectDataQuery.Create(ByEmailSql, [email], -1, -1);
      var dataRow := QueryExecution.GetRecord(selectQuery, dataSource);
      if dataRow.Throws? {
        return Throws(dataRow.ex);
      }
      if IsEmpty(dataRow.value) || !dataRow.value.Arr? {
        return Ok(null);
      }
      var user := new UserInfo(dataRow.value.entries);
      return Ok(user);
    }

    /** The query updateUserInfo builds before running it. */
    method SaveQuery(md5: string -> string) returns (updQuery: UpdateDataQuery)
      ensures fresh(updQuery)
      ensures updQuery.Descriptor() == SaveDescriptor(Data(), md5)
    {
      var accepted: Outcome<()>;
      if userID <= 0 {
        updQuery := UpdateDataQuery.CreateInsert(UserTable);
        accepted := updQuery.Set("userEmail", userEmail);
        accepted := updQuery.Set("userPassword", Str(md5(ToText(userPassword))));
        accepted := updQuery.Set("userUID", userUID);
      } else {
        updQuery := UpdateDataQuery.CreateUpdate(UserTable);
        accepted := updQuery.Where("userID", Int(userID), "=");
      }
      accepted := updQuery.Set("userFullName", userFullName);
      accepted := updQuery.Set("userCoin", Int(userCoin));
      accepted := updQuery.Set("userLifeCount", Int(userLifeCount));
      accepted := updQuery.Set("userItems", userItems);
    }

    /** updateUserInfo, given md5. */
    method UpdateUserInfo(dataSource: MySqlDataSource, md5: string -> string) returns (r: Outcome<OperationResult>)
      modifies this, dataSource
      ensures var (s, o) := ExecuteUpdateSpec(old(dataSource.State()), dataSource.server, dataSource.config, SaveDescriptor(old(Data()), md5));
        dataSource.State() == s && r == MapOk(o, FromUpdateQueryResult) && Data() == AfterSave(old(Data()), o)
    {
      var isInsert := userID <= 0;
      var updQuery := SaveQuery(md5);
      var updateResult := QueryExecution.ExecuteUpdate(updQuery, dataSource);
      if isInsert && updateResult.Ok? && updateResult.value.success != 0 {
        userID := updateResult.value.insertedID;
      }
      r := MapOk(updateResult, FromUpdateQueryResult);
    }

    /** resetUserSendGifts, given today's date: deletes the user's gifts of today
        (from the gift queue; see ResetDescriptorAsWritten for the code as written). */
    static method ResetUserSendGifts(userID: Value, today: string, dataSource: MySqlDataSource) returns (r: Outcome<OperationResult>)
      modifies dataSource
      ensures var (s, o) := ExecuteUpdateSpec(old(dataSource.State()), dataSource.server, dataSource.config, ResetDescriptor(userID, today));
        dataSource.State() == s && r == MapOk(o, FromUpdateQueryResult)
    {
      var deleteQuery := UpdateDataQuery.CreateDelete(GiftQueueTable);
      var accepted := deleteQuery.Where("fromUserID", userID, "=");
      accepted := deleteQuery.Where("giftDate", Str(today), "=");
      assert deleteQuery.Descriptor() == ResetDescriptor(userID, today);
      var updateResult := QueryExecution.ExecuteUpdate(deleteQuery, dataSource);
      r := MapOk(updateResult, FromUpdateQueryResult);
    }

    /** expireUnclaimedGifts: deletes every gift not yet accepted (from the gift
        queue; see ExpireDescriptorAsWritten for the code as written). */
    static method ExpireUnclaimedGifts(dataSource: MySqlDataSource) returns (r: Outcome<OperationResult>)
      modifies dataSource
      ensures var (s, o) := ExecuteUpdateSpec(old(dataSource.State()), dataSource.server, dataSource.config, ExpireDescriptor());
        dataSource.State() == s && r == MapOk(o, FromUpdateQueryResult)
    {
      var deleteQuery := UpdateDataQuery.CreateDelete(GiftQueueTable);
      var accepted := deleteQuery.Where("giftAccepted", Int(0), "=");
      assert deleteQuery.Descriptor() == ExpireDescriptor();
      var updateResult := QueryExecution.ExecuteUpdate(deleteQuery, dataSource);
      r := MapOk(updateResult, FromUpdateQueryResult);
    }
  }
}
