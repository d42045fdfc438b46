/**
 * The two typed shapes a raw news record is projected into (`NewsItem` and
 * `FullNewsItem`) and the tolerant field extraction they are built with.
 */
module Views {
  import opened Json
  import opened Wrappers

  /** `NewsItem`: the summary view of the plain listing. */
  datatype NewsSummary = NewsSummary(id: int, title: string, pubDate: string, sourceUrl: string)

  /**
   * `FullNewsItem`: the full view. `createdAt` is Go's zero value `""`
   * unless the record carries a string `created_at`; the field is tagged
   * `omitempty`, so an empty value is left out of the encoded object.
   */
  datatype NewsFull = NewsFull(id: int, title: string, description: string,
                               pubDate: string, sourceUrl: string, createdAt: string)

  /** `getStringValue`: the value under `key` if it is a string, else `""`. */
  function GetStringValue(item: Record, key: string): (v: string)
    ensures key in item && item[key].JStr? ==> v == item[key].str
    ensures key !in item || !item[key].JStr? ==> v == ""
  {
    if key in item && item[key].JStr? then item[key].str else ""
  }

  /** `item["id"].(float64)`: the id when it is a JSON number. */
  function NumericId(item: Record): (id: Option<int>)
    ensures id.Some? <==> "id" in item && item["id"].JNum?
    ensures id.Some? ==> item["id"] == JNum(id.value)
  {
    if "id" in item && item["id"].JNum? then Some(item["id"].num) else None
  }

  /** The summary of one record whose numeric id is `id`. */
  function Summarize(item: Record, id: int): (s: NewsSummary)
    ensures s.id == id
    ensures s.title != "" ==> "title" in item && item["title"] == JStr(s.title)
    ensures s.pubDate != "" ==> "pub_date" in item && item["pub_date"] == JStr(s.pubDate)
    ensures s.sourceUrl != "" ==> "source_url" in item && item["source_url"] == JStr(s.sourceUrl)
  {
    NewsSummary(id, GetStringValue(item, "title"), GetStringValue(item, "pub_date"),
                GetStringValue(item, "source_url"))
  }

  /** The full view of one record whose numeric id is `id`. */
  function Expand(item: Record, id: int): (f: NewsFull)
    ensures f.id == id
    ensures f.title != "" ==> "title" in item && item["title"] == JStr(f.title)
    ensures f.description != "" ==> "description" in item && item["description"] == JStr(f.description)
    ensures f.pubDate != "" ==> "pub_date" in item && item["pub_date"] == JStr(f.pubDate)
    ensures f.sourceUrl != "" ==> "source_url" in item && item["source_url"] == JStr(f.sourceUrl)
    ensures f.createdAt != "" ==> "created_at" in item && item["created_at"] == JStr(f.createdAt)
  {
    NewsFull(id, GetStringValue(item, "title"), GetStringValue(item, "description"),
             GetStringValue(item, "pub_date"), GetStringValue(item, "source_url"),
             GetStringValue(item, "created_at"))
  }

  /** The keys of a full view once encoded as JSON. */
  function FullKeys(v: NewsFull): set<string>
  {
    {"id", "title", "description", "pub_date", "source_url"}
      + (if v.createdAt != "" then {"created_at"} else {})
  }

  /**
   * Every summary field but the id comes from the record when it is a string
   * and is `""` otherwise; the id is the one the projection was given.
   */
  lemma SummaryFields(item: Record, id: int, key: string)
    requires key in {"title", "pub_date", "source_url"}
    ensures var s := Summarize(item, id);
      s.id == id &&
      (if key == "title" then s.title else if key == "pub_date" then s.pubDate else s.sourceUrl)
        == (if key in item && item[key].JStr? then item[key].str else "")
  {
  }

  /**
   * Every full-view field but the id and `created_at` comes from the record
   * when it is a string and is `""` otherwise; the id is the one given.
   */
  lemma ExpandFields(item: Record, id: int, key: string)
    requires key in {"title", "description", "pub_date", "source_url"}
    ensures var f := Expand(item, id);
      f.id == id &&
      (if key == "title" then f.title
       else if key == "description" then f.description
       else if key == "pub_date" then f.pubDate
       else f.sourceUrl)
        == (if key in item && item[key].JStr? then item[key].str else "")
  {
  }

  /** The full view agrees with the summary on the fields they share. */
  lemma ExpandExtendsSummary(item: Record, id: int)
    ensures var f, s := Expand(item, id), Summarize(item, id);
      f.id == s.id && f.title == s.title && f.pubDate == s.pubDate && f.sourceUrl == s.sourceUrl
  {
  }

  /**
   * `created_at` appears in the encoded full view exactly when the record
   * holds it as a non-empty string, and then with that value; the other five
   * keys always appear.
   */
  lemma CreatedAtPresence(item: Record, id: int)
    ensures var f := Expand(item, id);
      ("created_at" in FullKeys(f) <==> "created_at" in item && item["created_at"].JStr? && item["created_at"].str != "")
      && ("created_at" in FullKeys(f) ==> f.createdAt == item["created_at"].str)
      && {"id", "title", "description", "pub_date", "source_url"} <= FullKeys(f)
  {
  }
}
