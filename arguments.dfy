/**
 * The parsed command line as the argument parser exposes it: each option
 * name with its values in the order given. The parser itself is not part of
 * this model; getValues and getFirstValue are read as "all values of the
 * option, none when absent" and "the first of them, or the empty string";
 * asked for under two names, getValues gives the values of both.
 */
module Arguments {

  type ArgumentMap = map<string, seq<string>>

  function GetValues(arguments: ArgumentMap, name: string): seq<string> {
    if name in arguments then arguments[name] else []
  }

  /** getValues with a short and a long name: the values given under either, the short name's first. */
  function GetValuesEither(arguments: ArgumentMap, shortName: string, longName: string): seq<string> {
    GetValues(arguments, shortName) + GetValues(arguments, longName)
  }

  function GetFirstValue(arguments: ArgumentMap, name: string): string {
    var values := GetValues(arguments, name);
    if values == [] then "" else values[0]
  }
}
