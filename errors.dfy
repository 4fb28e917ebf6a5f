/** The Python exceptions the core can raise, and the text `str(e)` gives for each. */
module Errors {

  datatype Exception =
    | InvalidStatus(status: string)   // ValueError raised for a status outside the vocabulary
    | NoTestCases                     // ValueError raised for an empty Test Cases table
    | NotInList(item: string)         // ValueError raised by `list.index`
    | IndexOutOfRange                 // IndexError raised by indexing past the end of a row
    | TestCaseNotFound(id: string)    // ValueError raised when no row carries the ID
    | KeyMissing(key: string)         // KeyError raised by a dictionary lookup

  /** The order in which Python prints the status set depends on string hashing;
      this fixed listing stands for it. */
  const StatusSetText := "{'Not Started', 'In Progress', 'Blocked', 'Failed', 'Passed', 'Skipped'}"

  function Message(e: Exception): string {
    match e
    case InvalidStatus(s) => "Invalid status value: " + s + ". Valid statuses are: " + StatusSetText
    case NoTestCases => "No test cases found in spreadsheet"
    case NotInList(x) => "'" + x + "' is not in list"
    case IndexOutOfRange => "list index out of range"
    case TestCaseNotFound(id) => "Test case ID not found: " + id
    case KeyMissing(k) => "'" + k + "'"
  }

  /** Distinct exceptions print distinct texts, so an error text in the report names the
      exception, and the status, item, id or key it carries. */
  lemma MessageInjective(a: Exception, b: Exception)
    ensures Message(a) == Message(b) ==> a == b
  {
    if Message(a) == Message(b) {
      var m := Message(a);
      MessageLead(a);
      MessageLead(b);
      match a
      case InvalidStatus(s) =>
        var s' := b.status;
        assert m[22..|m| - |StatusSetText| - 22] == s;
        assert m[22..|m| - |StatusSetText| - 22] == s';
      case NotInList(x) =>
        assert m[1..|m| - 16] == x;
        assert m[1..|m| - 16] == b.item;
      case TestCaseNotFound(id) =>
        assert m[24..] == id;
        assert m[24..] == b.id;
      case KeyMissing(k) =>
        assert m[1..|m| - 1] == k;
        assert m[1..|m| - 1] == b.key;
      case _ =>
    }
  }

  /** The first and last characters of each text, which tell the kinds apart. */
  lemma MessageLead(e: Exception)
    ensures |Message(e)| > 0
    ensures Message(e)[0] == 'I' <==> e.InvalidStatus?
    ensures Message(e)[0] == 'N' <==> e.NoTestCases?
    ensures Message(e)[0] == 'l' <==> e.IndexOutOfRange?
    ensures Message(e)[0] == 'T' <==> e.TestCaseNotFound?
    ensures Message(e)[0] == '\'' && Message(e)[|Message(e)| - 1] == 't' <==> e.NotInList?
    ensures Message(e)[0] == '\'' && Message(e)[|Message(e)| - 1] == '\'' <==> e.KeyMissing?
  {
  }
}
