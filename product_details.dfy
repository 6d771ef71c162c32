// The rating label of Day_12/src/app/product-details/product-details.ts:
// the component turns its `SalesRating` input into a word when the input
// changes, and reports that word to its parent on a click.
module ProductDetails {
  import opened Wrappers
  import opened NgChanges

  /** The text emitted before the label by `onClick`. */
  const ReportPrefix: string := "Local sales report for this product: "

  /** The label shown before any change has been seen. */
  const DefaultLabel: string := "Default"

  /** The rating-to-label chain of `ngOnChanges`; ratings compare exactly. */
  function RatingLabel(rating: real): (word: string)
    ensures word in {"Good", "Very Good", "Excellent", "Undefined"}
  {
    if rating == 3.5 then "Good"
    else if rating == 4.0 then "Very Good"
    else if rating == 4.5 then "Excellent"
    else "Undefined"
  }

  /** The rating a named label stands for; None for "Undefined" and any other text. */
  function LabelRating(word: string): Option<real>
  {
    if word == "Good" then Some(3.5)
    else if word == "Very Good" then Some(4.0)
    else if word == "Excellent" then Some(4.5)
    else None
  }

  /** The three named ratings and their labels determine each other. */
  lemma LabelRoundTrip(rating: real, word: string)
    ensures LabelRating(RatingLabel(rating)) == Some(rating) <==> rating in {3.5, 4.0, 4.5}
    ensures LabelRating(word) == Some(rating) ==> RatingLabel(rating) == word
    ensures RatingLabel(rating) == "Undefined" <==> rating !in {3.5, 4.0, 4.5}
  {
  }

  /** `ngOnChanges`: relabel when the changes carry `SalesRating`, otherwise keep the label. */
  function OnChanges(word: string, changes: SimpleChanges<real>): (r: string)
    ensures r == word || r in {"Good", "Very Good", "Excellent", "Undefined"}
  {
    if "SalesRating" in changes then RatingLabel(changes["SalesRating"].currentValue) else word
  }

  /** The text `onClick` emits for a label. */
  function ReportMessage(word: string): string
  {
    ReportPrefix + word
  }

  /** After a rating change the label is one of the four words, whatever it was before. */
  lemma RelabelledOnRatingChange(word: string, changes: SimpleChanges<real>)
    requires "SalesRating" in changes
    ensures OnChanges(word, changes) in {"Good", "Very Good", "Excellent", "Undefined"}
    ensures OnChanges(word, changes) == RatingLabel(changes["SalesRating"].currentValue)
  {
  }

  /** Changes to other inputs leave the label alone. */
  lemma OtherChangesKeepLabel(word: string, changes: SimpleChanges<real>)
    requires "SalesRating" !in changes
    ensures OnChanges(word, changes) == word
  {
  }

  /** The emitted report starts with the fixed prefix and the label can be read back after it. */
  lemma ReportMessageCarriesLabel(word: string)
    ensures |ReportMessage(word)| == |ReportPrefix| + |word|
    ensures ReportMessage(word)[..|ReportPrefix|] == ReportPrefix
    ensures ReportMessage(word)[|ReportPrefix|..] == word
  {
  }

  /** ProductDetailsComponent: its rating input and the label field it derives. */
  class ProductDetailsComponent {
    var SalesRating: real
    var salesRatingLabel: string

    constructor ()
      ensures SalesRating == 3.5 && salesRatingLabel == DefaultLabel
    {
      SalesRating := 3.5;
      salesRatingLabel := DefaultLabel;
    }

    /** `ngOnChanges` (its console output left out). */
    method NgOnChanges(changes: SimpleChanges<real>)
      modifies this
      ensures salesRatingLabel == OnChanges(old(salesRatingLabel), changes)
      ensures SalesRating == old(SalesRating)
    {
      if "SalesRating" in changes {
        var rating := changes["SalesRating"].currentValue;
        salesRatingLabel := RatingLabel(rating);
      }
    }

    /** `onClick`: the text emitted through `GetLocalSales`. */
    method OnClick() returns (emitted: string)
      ensures emitted == ReportMessage(salesRatingLabel)
      ensures emitted[|ReportPrefix|..] == salesRatingLabel
    {
      emitted := ReportPrefix + salesRatingLabel;
    }
  }
}
