/** The search result handed from the search strategies to the clients. */
module Dto {

  /** The titles of one page of images plus the total number of matches. */
  class ImageSearchResult {
    var imageTitles: seq<string>
    var totalResults: int

    constructor(imageTitles: seq<string>, totalResults: int)
      ensures this.imageTitles == imageTitles && this.totalResults == totalResults
    {
      this.imageTitles := imageTitles;
      this.totalResults := totalResults;
    }

    /** `new ImageSearchResult()`: no titles and a total of 0. */
    constructor Empty()
      ensures imageTitles == [] && totalResults == 0
    {
      imageTitles := [];
      totalResults := 0;
    }

    method GetTotalResults() returns (n: int)
      ensures n == totalResults
    {
      n := totalResults;
    }

    /** Only the total changes; the titles stay as they are. */
    method SetTotalResults(n: int)
      modifies this`totalResults
      ensures totalResults == n
    {
      totalResults := n;
    }

    method GetImageTitles() returns (titles: seq<string>)
      ensures titles == imageTitles
    {
      titles := imageTitles;
    }

    /** The title goes at the end; earlier titles and the total stay as they are. */
    method AddImageTitle(title: string)
      modifies this`imageTitles
      ensures imageTitles == old(imageTitles) + [title]
    {
      imageTitles := imageTitles + [title];
    }
  }
}
