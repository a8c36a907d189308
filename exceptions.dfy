/** The exceptions the core raises: those of spparser/utils/Exceptions.py and the few built-in ones its code hits. */
module Exceptions {

  datatype Error =
    | ArgValueError(value: string)   // an argument has the wrong type or value
    | ParamsError(value: string)     // a connection parameter is missing
    | FieldNameTypeError             // retDict got field names that are neither str nor list
    | TypeError                      // built-in: an unhashable dict key, an unknown keyword argument
    | IndexError                     // built-in: data[0] of an empty list
    | AttributeError                 // built-in: .keys() of a non-dict, .group() of a failed match
    | ValueError                     // built-in: a DictWriter record with a key outside its field names
    | CsvError                       // built-in csv.Error: csv.writer's writerow given a row that is not iterable
}
