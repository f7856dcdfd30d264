/** JSON values; the order of an object's keys is not kept. */
module JsonTrees {
  datatype Json =
    | Null
    | Flag(flag: bool)
    | Number(number: real)
    | Text(text: string)
    | Items(items: seq<Json>)
    | Dict(entries: map<string, Json>)
}
