/** The values `JSON.parse` produces: the request bodies the validators check and the JSON-LD blocks of a page. */
module Json {

  datatype Json =
    | Null
    | Bool(b: bool)
    | Number(n: real)
    | String(s: string)
    | Array(items: seq<Json>)
    | Object(members: map<string, Json>)
}
