/** The values that cross the network between the client and the server:
    dates, the style record, the task as the API returns it, session claims
    and HTTP responses. */
module Wire {
  import opened JsValues

  /** A date as the instant it denotes, in milliseconds since the epoch
      (`Date.prototype.getTime`). Dates compare as these numbers. */
  type Date = int

  /** A date in a request body: its text, which decides truthiness, and the
      instant `new Date(text)` yields. */
  datatype DateText = DateText(text: string, instant: Date)

  /** Truthiness of a date field of a request body: a non-empty string. */
  predicate TruthyDate(f: Field<DateText>) {
    f.Given? && f.value.text != ""
  }

  /** `f ? new Date(f) : fallback`. */
  function DateOr(f: Field<DateText>, fallback: Date): Date {
    if TruthyDate(f) then f.value.instant else fallback
  }

  /** The chart colours of a task, each optional. */
  datatype Styles = Styles(
    progressColor: Option<string>,
    progressSelectedColor: Option<string>,
    backgroundColor: Option<string>,
    backgroundSelectedColor: Option<string>)

  /** The object `{}`. */
  const EmptyStyles: Styles := Styles(None, None, None, None)

  /** The colours the client uses when a task brings none. */
  const DefaultStyles: Styles :=
    Styles(Some("#667eea"), Some("#667eea"), Some("#e5e7eb"), Some("#d1d5db"))

  /** A task as the API sends it. `progress` and `isDisabled` may be JSON
      `null` (SQL NULL); `None` in `taskType` and `styles` stands for an
      absent or null field, which the client also tolerates. */
  datatype ApiTask = ApiTask(
    id: nat,
    name: string,
    start: Date,
    end: Date,
    progress: Option<int>,
    taskType: Option<string>,
    isDisabled: Option<bool>,
    styles: Option<Styles>)

  /** The claims a session token carries: `{id, username, company}`. */
  datatype Claims = Claims(id: nat, username: string, company: Option<string>)

  /** The account summary the login response returns; it has no password. */
  datatype UserSummary = UserSummary(id: nat, username: string, email: string, company: Option<string>)

  /** The JSON body of a response. */
  datatype Payload =
    | Message(text: string)
    | TaskList(tasks: seq<ApiTask>)
    | OneTask(task: ApiTask)
    | Session(token: string, user: UserSummary)

  datatype Response = Response(status: int, body: Payload)
}
