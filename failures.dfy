/**
 The exceptions one polling cycle can raise, as a datatype, and the text
 `str(error)` gives for each: that text is what the bot forwards to the chat
 in its failure message.
 */
module Failures {

  datatype Option<+T> = None | Some(value: T)

  datatype Failure =
    /** TypeError from `check_response`: the body is not a dict. */
    | NotAMapping
    /** KeyError from `check_response`: no `homeworks` key. */
    | MissingHomeworks
    /** KeyError from `check_response`: no `current_date` key. */
    | MissingCurrentDate
    /** TypeError from `check_response`: `homeworks` is not a list. */
    | HomeworksNotAList
    /** AttributeError from `parse_status`: a truthy submission that is not a dict has no `get`. */
    | NoGetMethod(typeName: string)
    /** KeyError from `parse_status`: `homework_name` absent or null. */
    | MissingHomeworkName
    /** KeyError from `parse_status`: no `status` key. */
    | MissingStatus
    /** TypeError from `parse_status`: a list or dict status cannot be looked up in a dict. */
    | UnhashableStatus(typeName: string)
    /** SystemError from `parse_status`: the status is not in the verdict table. */
    | UnknownStatus
    /** Whatever `get_api_answer` raised, carried as the text of the exception. */
    | Upstream(text: string)
    /** An exception other than `telegram.TelegramError` raised by the transport while sending. */
    | Transport(text: string)

  datatype Result<+T> = Ok(value: T) | Err(error: Failure)

  /** `str(KeyError(m))` is the repr of `m`; none of the bot's messages contains a single quote. */
  function KeyErrorText(message: string): (r: string)
    ensures |r| == |message| + 2 && r[0] == '\'' && r[|r| - 1] == '\'' && r[1..|r| - 1] == message
  {
    "'" + message + "'"
  }

  /** The kinds raised as `KeyError`. */
  predicate IsKeyError(f: Failure) {
    f.MissingHomeworks? || f.MissingCurrentDate? || f.MissingHomeworkName? || f.MissingStatus?
  }

  const NOT_A_MAPPING := "Полученный ответ не является словарем."
  const NO_HOMEWORKS := "В ответе отсутствует информация о домашних заданиях."
  const NO_CURRENT_DATE := "В ответе отсутствует информация о текущей дате."
  const NOT_A_LIST := "Значение ключа homeworks не является списком."
  const NO_HOMEWORK_NAME := "Ключ \"homework_name\" отсутствует."
  const NO_STATUS := "Ключ \"status\" отсутствует."
  const UNKNOWN_STATUS := "Неизвестный статус"

  /** `str(error)` for each kind; a `KeyError` shows its message between single quotes. */
  function Text(f: Failure): (r: string)
    ensures IsKeyError(f) ==> |r| >= 2 && r[0] == '\'' && r[|r| - 1] == '\''
    ensures f.Upstream? || f.Transport? ==> r == f.text
  {
    match f
    case NotAMapping => NOT_A_MAPPING
    case MissingHomeworks => KeyErrorText(NO_HOMEWORKS)
    case MissingCurrentDate => KeyErrorText(NO_CURRENT_DATE)
    case HomeworksNotAList => NOT_A_LIST
    case NoGetMethod(t) => "'" + t + "' object has no attribute 'get'"
    case MissingHomeworkName => KeyErrorText(NO_HOMEWORK_NAME)
    case MissingStatus => KeyErrorText(NO_STATUS)
    case UnhashableStatus(t) => "unhashable type: '" + t + "'"
    case UnknownStatus => UNKNOWN_STATUS
    case Upstream(text) => text
    case Transport(text) => text
  }

  /** The kinds whose text is fixed: everything the validator and the interpreter raise except the two that name a type. */
  predicate FixedText(f: Failure) {
    f.NotAMapping? || IsKeyError(f) || f.HomeworksNotAList? || f.UnknownStatus?
  }

  /** The failure notice tells which check failed: no two fixed-text kinds share their text. */
  lemma TextIdentifiesCheck(f: Failure, g: Failure)
    requires FixedText(f) && FixedText(g) && Text(f) == Text(g)
    ensures f == g
  {
  }
}
