/**
 * Activity-log helpers that bridge the two schema versions (`action` and
 * `action_type`) and the display form of an action name.
 */
module ActivityLogHelpers {
  import opened Common

  /**
   * The `details` value handed to the log helpers: absent, a string, `null`, or a
   * non-null object carried with the text `JSON.stringify` gives for it.
   */
  datatype Details = NoDetails | NullDetails | Text(text: string) | Structured(json: string)

  /** An activity-log record as read from either schema: both action columns are optional. */
  datatype LogRecord = LogRecord(
    id: Option<string>,
    timestamp: Option<string>,
    createdAt: Option<string>,
    action: Option<string>,
    actionType: Option<string>,
    userId: Option<string>,
    userEmail: Option<string>,
    entityType: Option<string>,
    entityId: Option<string>,
    details: Details,
    status: Option<string>,
    projectId: Option<string>)

  /** `getActionType`: the newer column when it is non-empty, else the older one, else "". */
  function GetActionType(log: LogRecord): (r: string)
    ensures Truthy(log.actionType) ==> r == log.actionType.value
    ensures !Truthy(log.actionType) && Truthy(log.action) ==> r == log.action.value
    ensures !Truthy(log.actionType) && !Truthy(log.action) ==> r == ""
  {
    OrElse(log.actionType, OrElse(log.action, ""))
  }

  // ---------------------------------------------------------------------------
  // formatActionType: `_` becomes a space, then `\b\w` is upper-cased.

  /** The regular-expression class `\w`: ASCII letters, digits and `_`. */
  predicate IsWordChar(c: char) {
    ('a' <= c <= 'z') || ('A' <= c <= 'Z') || ('0' <= c <= '9') || c == '_'
  }

  /** `toUpperCase` on a character matched by `\w`: only a-z change. */
  function UpperChar(c: char): (r: char)
    ensures 'a' <= c <= 'z' ==> r as int == c as int - 32
    ensures !('a' <= c <= 'z') ==> r == c
  {
    if 'a' <= c <= 'z' then (c as int - 32) as char else c
  }

  /** The first replace, on one character. */
  function Unscore(c: char): char {
    if c == '_' then ' ' else c
  }

  /** `s.replace(/_/g, " ")`. */
  function SpaceUnderscores(s: string): (r: string)
    ensures |r| == |s|
    ensures forall i :: 0 <= i < |s| ==> r[i] == Unscore(s[i])
  {
    if s == [] then [] else [Unscore(s[0])] + SpaceUnderscores(s[1..])
  }

  /**
   * `s.replace(/\b\w/g, l => l.toUpperCase())`, scanning left to right;
   * `afterWord` says whether the character before `s` was a word character.
   */
  function CapitalizeWords(s: string, afterWord: bool): string {
    if s == [] then []
    else
      var c := s[0];
      [if IsWordChar(c) && !afterWord then UpperChar(c) else c] + CapitalizeWords(s[1..], IsWordChar(c))
  }

  /** `formatActionType`. */
  function FormatActionType(actionType: string): string {
    if actionType == "" then "" else CapitalizeWords(SpaceUnderscores(actionType), false)
  }

  /** A word boundary precedes index `i` of `s` when `s[i-1]` is not a word character (or `i` is 0). */
  predicate StartsWord(s: string, i: int)
    requires 0 <= i < |s|
  {
    IsWordChar(s[i]) && (i == 0 || !IsWordChar(s[i - 1]))
  }

  lemma {:induction false} CapitalizeWordsAt(s: string, afterWord: bool)
    ensures |CapitalizeWords(s, afterWord)| == |s|
    ensures forall i :: 0 <= i < |s| ==>
      CapitalizeWords(s, afterWord)[i]
        == if IsWordChar(s[i]) && (if i == 0 then !afterWord else !IsWordChar(s[i - 1])) then UpperChar(s[i]) else s[i]
    decreases |s|
  {
    if s != [] {
      CapitalizeWordsAt(s[1..], IsWordChar(s[0]));
      var r := CapitalizeWords(s, afterWord);
      forall i | 0 <= i < |s|
        ensures r[i] == if IsWordChar(s[i]) && (if i == 0 then !afterWord else !IsWordChar(s[i - 1])) then UpperChar(s[i]) else s[i]
      {
        if i > 0 {
          assert r[i] == CapitalizeWords(s[1..], IsWordChar(s[0]))[i - 1];
          assert s[1..][i - 1] == s[i];
          if i > 1 {
            assert s[1..][i - 2] == s[i - 1];
          }
        }
      }
    }
  }

  /**
   * Each character of `formatActionType(s)` is the character of `s` with `_` made a
   * space, upper-cased exactly when it starts a word; the length does not change.
   */
  lemma FormatActionTypeChars(s: string)
    ensures |FormatActionType(s)| == |s|
    ensures forall i :: 0 <= i < |s| ==>
      FormatActionType(s)[i]
        == if StartsWord(SpaceUnderscores(s), i) then UpperChar(Unscore(s[i])) else Unscore(s[i])
  {
    if s != "" {
      CapitalizeWordsAt(SpaceUnderscores(s), false);
    }
  }

  /** The empty string formats to the empty string, and no output contains `_`. */
  lemma FormatActionTypeNoUnderscore(s: string)
    ensures FormatActionType("") == ""
    ensures '_' !in FormatActionType(s)
  {
    FormatActionTypeChars(s);
    var r := FormatActionType(s);
    forall i | 0 <= i < |r|
      ensures r[i] != '_'
    {
      assert Unscore(s[i]) != '_';
    }
  }

  /** Formatting an already formatted action name changes nothing. */
  lemma FormatActionTypeIdempotent(s: string)
    ensures FormatActionType(FormatActionType(s)) == FormatActionType(s)
  {
    var r := FormatActionType(s);
    FormatActionTypeChars(s);
    FormatActionTypeChars(r);
    var t := FormatActionType(r);
    var u := SpaceUnderscores(s);
    var v := SpaceUnderscores(r);
    forall i | 0 <= i < |r|
      ensures v[i] == r[i] && (IsWordChar(r[i]) <==> IsWordChar(u[i]))
    {
      assert r[i] != '_';
    }
    forall i | 0 <= i < |r|
      ensures t[i] == r[i]
    {
      assert StartsWord(v, i) <==> StartsWord(u, i);
    }
  }

  // ---------------------------------------------------------------------------
  // createActivityLogEntry and normalizeActivityLog

  /** The parameters of `createActivityLogEntry`. */
  datatype EntryParams = EntryParams(
    action: string,
    userId: Option<string>,
    userEmail: Option<string>,
    entityType: Option<string>,
    entityId: Option<string>,
    details: Details,
    status: Option<string>,
    projectId: Option<string>)

  /**
   * `createActivityLogEntry`, stamped at `now`; the entry carries no id yet. Object
   * details (`null` included, since `typeof null` is "object") are stored as their
   * JSON text; a string or a missing value is stored as given.
   */
  function CreateActivityLogEntry(p: EntryParams, now: string): (r: LogRecord)
    ensures r.action == Some(p.action) && r.actionType == Some(p.action)
    ensures r.status == Some(OrElse(p.status, "success"))
    ensures r.timestamp == Some(now) && r.id == None
    ensures p.details.Structured? ==> r.details == Text(p.details.json)
    ensures p.details.NullDetails? ==> r.details == Text("null")
    ensures p.details.Text? || p.details.NoDetails? ==> r.details == p.details
    ensures r.details.Text? || r.details.NoDetails?
  {
    var details := match p.details
      case NullDetails => Text("null")
      case Structured(json) => Text(json)
      case d => d;
    LogRecord(None, Some(now), None, Some(p.action), Some(p.action), p.userId, p.userEmail,
              p.entityType, p.entityId, details, Some(OrElse(p.status, "success")), p.projectId)
  }

  /** The application's `ActivityLog`; `timestamp` is the text the `Date` is built from. */
  datatype ActivityLog = ActivityLog(
    id: Option<string>,
    timestamp: Option<string>,
    action: Option<string>,
    userId: Option<string>,
    userEmail: Option<string>,
    entityType: Option<string>,
    entityId: Option<string>,
    details: string,
    status: string,
    projectId: Option<string>)

  /** `normalizeActivityLog`. */
  function NormalizeActivityLog(log: LogRecord): (r: ActivityLog)
    ensures Truthy(log.actionType) ==> r.action == log.actionType
    ensures !Truthy(log.actionType) ==> r.action == log.action
    ensures r.status == OrElse(log.status, "success")
    ensures log.details.Text? ==> r.details == log.details.text
    ensures log.details.Structured? ==> r.details == log.details.json
    ensures log.details.NoDetails? || log.details.NullDetails? ==> r.details == "{}"
  {
    ActivityLog(
      log.id,
      if Truthy(log.timestamp) then log.timestamp else log.createdAt,
      if Truthy(log.actionType) then log.actionType else log.action,
      log.userId, log.userEmail, log.entityType, log.entityId,
      match log.details
      case Text(s) => s
      case Structured(json) => json
      case NullDetails => "{}"
      case NoDetails => "{}",
      OrElse(log.status, "success"),
      log.projectId)
  }

  /** On any record with a non-empty action, the normalised action is the one `getActionType` reads. */
  lemma NormalizedActionIsActionType(log: LogRecord)
    requires Truthy(log.actionType) || Truthy(log.action)
    ensures NormalizeActivityLog(log).action == Some(GetActionType(log))
  {
  }

  /**
   * A created entry read back through `normalizeActivityLog` keeps its action, its
   * string details, its time and its status, "success" by default.
   */
  lemma CreatedEntryNormalizes(p: EntryParams, now: string)
    requires p.action != "" && now != ""
    ensures var a := NormalizeActivityLog(CreateActivityLogEntry(p, now));
      a.action == Some(p.action) && GetActionType(CreateActivityLogEntry(p, now)) == p.action
      && a.status == OrElse(p.status, "success") && a.timestamp == Some(now)
      && (p.details.Text? ==> a.details == p.details.text)
      && (p.details.Structured? ==> a.details == p.details.json)
      && (p.details.NullDetails? ==> a.details == "null")
      && (p.details.NoDetails? ==> a.details == "{}")
  {
  }
}
