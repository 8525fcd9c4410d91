/** The documentation database as the reports see it: the pages created so
    far. It stands for the HTTP service that creates pages and answers the
    cycle existence query. */
module NotionStore {
  import opened Dicts
  import opened DocumentBuilder

  /** A page of database `databaseId` whose `Cycle` property is `cycleName`. */
  predicate IsCycleDoc(p: Page, databaseId: string, cycleName: string) {
    p.databaseId == databaseId && Has(p.properties, "Cycle") && Get(p.properties, "Cycle") == RichTextProp(cycleName)
  }

  /** Some page of `pages` is the document of cycle `cycleName` in database `databaseId`. */
  predicate HasCycleDoc(pages: seq<Page>, databaseId: string, cycleName: string) {
    exists i :: 0 <= i < |pages| && IsCycleDoc(pages[i], databaseId, cycleName)
  }

  class PageStore {
    var pages: seq<Page>

    constructor ()
      ensures pages == []
    {
      pages := [];
    }

    /** `insert_notion_page`: the payload becomes a new page. */
    method InsertPage(payload: Page)
      modifies this
      ensures pages == old(pages) + [payload]
    {
      pages := pages + [payload];
    }

    /** `is_cycle_doc_exists`: the query filtered on the `Cycle` property returns some page. */
    predicate IsCycleDocExists(databaseId: string, cycleName: string)
      reads this
    {
      HasCycleDoc(pages, databaseId, cycleName)
    }
  }
}
