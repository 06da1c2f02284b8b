/** The error-code registry: a process-wide pair of maps from error codes to
    shared error objects and to HTTP statuses, the construction of errors by
    code, and their conversion to HTTP errors. */
module Errors {
  import opened Common

  const Uint64Modulus := 0x1_0000_0000_0000_0000

  /** `LankyErrorCode`, a `uint64`. */
  type ErrorCode = n: int | 0 <= n < Uint64Modulus

  const UnidentifiedError: ErrorCode := 0
  const StatusInternalServerError := 500
  const UnidentifiedClientMessage := "Unidentified error has occured. Please contact our dev"
  const UnidentifiedSystemMessage := "Internal server error"

  /** The fields of a `LankyCommonError`; `Err` and `Trace` are `*string`,
      `None` standing for `nil`. */
  datatype ErrorFields = ErrorFields(
    clientMessage: string,
    systemMessage: Any,
    code: ErrorCode,
    err: Option<string>,
    trace: Option<string>)

  /** The entry `Register` installs under code 0. */
  const UnidentifiedFields :=
    ErrorFields(UnidentifiedClientMessage, Str(UnidentifiedSystemMessage), UnidentifiedError, None, None)

  /** `LankyCommonError`: shared by reference, its fields are updated in place. */
  class CommonError {
    var clientMessage: string
    var systemMessage: Any
    var code: ErrorCode
    var err: Option<string>
    var trace: Option<string>

    constructor (f: ErrorFields)
      ensures Fields() == f
    {
      clientMessage := f.clientMessage;
      systemMessage := f.systemMessage;
      code := f.code;
      err := f.err;
      trace := f.trace;
    }

    function Fields(): ErrorFields
      reads this
    {
      ErrorFields(clientMessage, systemMessage, code, err, trace)
    }

    /** `SetClientMessage`: changes the client message and nothing else. */
    method SetClientMessage(val: string)
      modifies this
      ensures Fields() == old(Fields()).(clientMessage := val)
    {
      clientMessage := val;
    }

    /** `SetSystemMessage`: changes the system message and nothing else. */
    method SetSystemMessage(val: Any)
      modifies this
      ensures Fields() == old(Fields()).(systemMessage := val)
    {
      systemMessage := val;
    }
  }

  /** `LankyHttpCommonError`: a copy of the common error's fields and a
      status. */
  datatype HttpCommonError = HttpCommonError(common: ErrorFields, httpStatusNumber: int)

  /** A Go `error` handed to `New`: its `Error()` text, its `%+v` rendering,
      and the `*LankyCommonError` it is, if it is one (`null` otherwise). */
  datatype GoError = GoError(text: string, detail: string, lanky: CommonError?)

  /** A `map[LankyErrorCode]*LankyCommonError`. Go maps are references, so
      the registry and its caller share it; a stored reference may be `nil`. */
  class ErrorDict {
    var entries: map<ErrorCode, CommonError?>

    constructor (entries: map<ErrorCode, CommonError?>)
      ensures this.entries == entries
    {
      this.entries := entries;
    }
  }

  /** A `map[LankyErrorCode]int` of HTTP statuses, shared like `ErrorDict`. */
  class StatusDict {
    var entries: map<ErrorCode, int>

    constructor (entries: map<ErrorCode, int>)
      ensures this.entries == entries
    {
      this.entries := entries;
    }
  }

  /** The status of `code`: a missing entry reads as Go's zero value, and a
      zero status falls back to 500; the result is never zero. */
  function StatusOf(stat: map<ErrorCode, int>, code: ErrorCode): (st: int)
    ensures st != 0
    ensures code in stat && stat[code] != 0 ==> st == stat[code]
    ensures code !in stat || stat[code] == 0 ==> st == StatusInternalServerError
  {
    var st := if code in stat then stat[code] else 0;
    if st == 0 then StatusInternalServerError else st
  }

  /** The fields of the error `New` builds when no entry is registered for
      `code`: `Err` and `Trace` are set exactly when an error is given; the
      messages are the fixed "unidentified" ones unless the code is 0 and an
      error is given, in which case they are the error's texts. */
  function NewFields(code: ErrorCode, err: Option<GoError>): (f: ErrorFields)
    ensures f.code == code
    ensures f.err.Some? <==> err.Some?
    ensures f.trace.Some? <==> err.Some?
    ensures err.Some? ==> f.err == Some(err.value.text) && f.trace == Some(err.value.detail)
    ensures code == UnidentifiedError && err.Some? ==>
      f.clientMessage == err.value.text && f.systemMessage == Str(err.value.detail)
    ensures code != UnidentifiedError || err.None? ==>
      f.clientMessage == UnidentifiedClientMessage && f.systemMessage == Str(UnidentifiedSystemMessage)
  {
    match err
    case None => ErrorFields(UnidentifiedClientMessage, Str(UnidentifiedSystemMessage), code, None, None)
    case Some(e) =>
      if code == UnidentifiedError then ErrorFields(e.text, Str(e.detail), code, Some(e.text), Some(e.detail))
      else ErrorFields(UnidentifiedClientMessage, Str(UnidentifiedSystemMessage), code, Some(e.text), Some(e.detail))
  }

  /** The global `me`: the maps every lookup goes through. */
  class Registry {
    var dict: ErrorDict
    var stat: StatusDict

    /** The initial `me`: two empty maps, so every code has status 500. */
    constructor ()
      ensures fresh(dict) && fresh(stat)
      ensures dict.entries == map[] && stat.entries == map[]
      ensures forall code: ErrorCode :: HttpStatus(code) == StatusInternalServerError
    {
      dict := new ErrorDict(map[]);
      stat := new StatusDict(map[]);
    }

    /** The registered error of `code`: `me.dict[code]`, `nil` when absent. */
    function Lookup(code: ErrorCode): CommonError?
      reads this, dict
    {
      if code in dict.entries then dict.entries[code] else null
    }

    /** The status lookup of `GetHttpStatus`, by code. */
    function HttpStatus(code: ErrorCode): (st: int)
      reads this, stat
      ensures st != 0
    {
      StatusOf(stat.entries, code)
    }

    /** `GetHttpStatus`: the registered status of the error's code, or 500. */
    function GetHttpStatus(e: CommonError): (st: int)
      reads this, stat, e
      ensures st == StatusOf(stat.entries, e.code)
    {
      HttpStatus(e.code)
    }

    /** `ToHttpStatusError`: a copy of every field of the error, with the
        status `GetHttpStatus` gives it. */
    function ToHttpStatusError(e: CommonError): (h: HttpCommonError)
      reads this, stat, e
      ensures h.common == e.Fields()
      ensures h.httpStatusNumber == StatusOf(stat.entries, e.code) && h.httpStatusNumber != 0
    {
      HttpCommonError(e.Fields(), GetHttpStatus(e))
    }

    /** `Register`: `me` now uses the caller's own maps, into which it writes
        a fresh "unidentified" error and status 500 under code 0; every other
        entry is the caller's. */
    method Register(dict: ErrorDict, stat: StatusDict)
      modifies this, dict, stat
      ensures this.dict == dict && this.stat == stat
      ensures stat.entries == old(stat.entries)[UnidentifiedError := StatusInternalServerError]
      ensures UnidentifiedError in dict.entries
      ensures var e := dict.entries[UnidentifiedError];
        && e != null && fresh(e) && e.Fields() == UnidentifiedFields
        && dict.entries == old(dict.entries)[UnidentifiedError := e]
      ensures HttpStatus(UnidentifiedError) == StatusInternalServerError
      ensures forall code: ErrorCode :: code != UnidentifiedError ==>
        HttpStatus(code) == StatusOf(old(stat.entries), code)
    {
      this.dict := dict;
      this.stat := stat;
      var e := new CommonError(UnidentifiedFields);
      dict.entries := dict.entries[UnidentifiedError := e];
      stat.entries := stat.entries[UnidentifiedError := StatusInternalServerError];
    }

    /** `New`: the registered error of `code` has its `Err` and `Trace`
        overwritten in place and is returned itself, shared with every
        earlier caller; without one, a fresh error is built. In both cases an
        error that is itself a `LankyCommonError` is returned instead, after
        the overwrite. The maps are not changed. */
    method New(code: ErrorCode, err: Option<GoError>) returns (r: CommonError)
      modifies if Lookup(code) != null then {Lookup(code)} else {}
      ensures var e := old(Lookup(code));
        e != null ==> e.Fields() == old(e.Fields()).(err := NewFields(code, err).err, trace := NewFields(code, err).trace)
      ensures err.Some? && err.value.lanky != null ==> r == err.value.lanky
      ensures (err.None? || err.value.lanky == null) && old(Lookup(code)) != null ==> r == old(Lookup(code))
      ensures (err.None? || err.value.lanky == null) && old(Lookup(code)) == null ==>
        fresh(r) && r.Fields() == NewFields(code, err)
    {
      var em: Option<string> := None;
      var et: Option<string> := None;
      var cm := UnidentifiedClientMessage;
      var sm := Str(UnidentifiedSystemMessage);
      var lce := Lookup(code);
      if err.Some? {
        em := Some(err.value.text);
        et := Some(err.value.detail);
        if code == UnidentifiedError {
          cm := err.value.text;
          sm := Str(err.value.detail);
        }
      }
      if lce == null {
        lce := new CommonError(ErrorFields(cm, sm, code, em, et));
      } else {
        lce.err := em;
        lce.trace := et;
      }
      if err.Some? && err.value.lanky != null {
        return err.value.lanky;
      }
      return lce;
    }

    /** Two `New` calls with the same registered code hand out one shared
        error, which afterwards carries the second call's texts: the later
        call has changed the result of the earlier one. */
    method NewSharesRegisteredEntry(code: ErrorCode, first: GoError, second: GoError)
      returns (a: CommonError, b: CommonError)
      requires Lookup(code) != null && first.lanky == null && second.lanky == null
      modifies Lookup(code)
      ensures a == b == old(Lookup(code))
      ensures a.err == Some(second.text) && a.trace == Some(second.detail)
    {
      a := New(code, Some(first));
      b := New(code, Some(second));
    }
  }
}
