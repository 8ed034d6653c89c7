/** The naming convention that derives a property name from a backing-field name. */
module Naming {

  /** ASCII upper-casing of one character. */
  function ToUpperAscii(c: char): char
  {
    if 'a' <= c <= 'z' then (c as int - 'a' as int + 'A' as int) as char else c
  }

  /** The field name with exactly one leading "_" removed, or failing that one leading "m_". */
  function StripPrefix(fieldName: string): string
  {
    if |fieldName| >= 1 && fieldName[0] == '_' then fieldName[1..]
    else if |fieldName| >= 2 && fieldName[..2] == "m_" then fieldName[2..]
    else fieldName
  }

  /** The convention is defined unless stripping the prefix leaves nothing ("_", "m_"):
      taking the first character of an empty remainder throws in the source. */
  predicate HasDefaultName(fieldName: string)
  {
    StripPrefix(fieldName) != []
  }

  /** The property name the convention derives from a field name. */
  function DefaultPropertyName(fieldName: string): (r: string)
    requires HasDefaultName(fieldName)
    ensures |fieldName| >= 2 && fieldName[0] == '_' ==>
              r == [ToUpperAscii(fieldName[1])] + fieldName[2..]
    ensures |fieldName| >= 3 && fieldName[0] == 'm' && fieldName[1] == '_' ==>
              r == [ToUpperAscii(fieldName[2])] + fieldName[3..]
    ensures fieldName != [] && fieldName[0] != '_' && !(|fieldName| >= 2 && fieldName[..2] == "m_") ==>
              r == [ToUpperAscii(fieldName[0])] + fieldName[1..]
    ensures r != [] && !('a' <= r[0] <= 'z')
  {
    var rest := StripPrefix(fieldName);
    var firstCharacter := [ToUpperAscii(rest[0])];
    if |rest| > 1 then firstCharacter + rest[1..] else firstCharacter
  }

  /** Worked cases of the convention, including that only one prefix is stripped. */
  lemma DefaultPropertyNameExamples()
    ensures DefaultPropertyName("_firstName") == "FirstName"
    ensures DefaultPropertyName("m_foo") == "Foo"
    ensures DefaultPropertyName("_f") == "F"
    ensures DefaultPropertyName("_m_x") == "M_x"
    ensures DefaultPropertyName("Name") == "Name"
  {
  }
}
