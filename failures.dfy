/** The exceptions a poll cycle can raise, each with the text `str(error)` gives,
    which the cycle's error branch stores and sends. */
module Failures {
  import opened JsonValues

  datatype Failure =
    | FetchError(reason: string)      // anything get_api_answer raised, as its text
    | NotIterable(typeName: string)   // `'homeworks' in v` on None, a bool or an int
    | EmptyAnswer                     // no `homeworks` key (EmptyAnswersAPI)
    | NoGetMethod(typeName: string)   // `v.get(...)` on a list or a str
    | HomeworksNotList                // `homeworks` is not a list
    | NotADict                        // the record is not a dict
    | NoName                          // `homework_name` missing or null
    | NoStatus                        // `status` missing or null
    | UnhashableKey(typeName: string) // a list or dict used as a dict key
    | UnknownStatus(shown: string)    // a status outside the verdict table

  /** `str(error)`. EmptyAnswersAPI does not derive from Exception and has no
      constructor taking a message, so raising it raises a TypeError instead;
      a KeyError's text is the repr of its message. */
  function Text(f: Failure): string
  {
    match f
    case FetchError(reason) => reason
    case NotIterable(t) => "argument of type '" + t + "' is not iterable"
    case EmptyAnswer => "EmptyAnswersAPI() takes no arguments"
    case NoGetMethod(t) => "'" + t + "' object has no attribute 'get'"
    case HomeworksNotList => "'homework не является списком!'"
    case NotADict => "homework не является словарем!"
    case NoName => "'У homework нет имени'"
    case NoStatus => "'У homework нет статуса'"
    case UnhashableKey(t) => "unhashable type: '" + t + "'"
    case UnknownStatus(shown) => "Ошибка статуса homework : " + shown
  }
}
