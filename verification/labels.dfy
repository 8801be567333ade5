/** Label lists of activities and entities, merged by string value as `addLabels` and
    `addDescriptionLabel` merge them: a label is appended only when no label with the same
    value is stored yet, and the stored labels keep their order. */
module Labels {
  import opened Wrappers

  predicate NoDuplicates(s: seq<string>) {
    forall i, j :: 0 <= i < j < |s| ==> s[i] != s[j]
  }

  /** Append `x` unless a label with its value is already there. */
  function AddIfAbsent(labels: seq<string>, x: string): (r: seq<string>)
    ensures |r| == |labels| + (if x in labels then 0 else 1)
    ensures x in r && r[..|labels|] == labels
  {
    if x in labels then labels else labels + [x]
  }

  /** `addDescriptionLabel`: nothing for a null description, otherwise `AddIfAbsent`. */
  function AddDescriptionLabel(d: Option<string>, labels: seq<string>): (r: seq<string>)
    ensures |labels| <= |r| <= |labels| + 1 && r[..|labels|] == labels
    ensures forall x :: x in r <==> x in labels || d == Some(x)
  {
    match d
    case None => labels
    case Some(x) => AddIfAbsent(labels, x)
  }

  /** `addLabels`: the new labels in order, each appended when its value is not stored yet.
      The stream's filter runs lazily, element by element, against the growing list, so a
      value repeated among the new labels is appended once. */
  function AddLabels(news: seq<string>, labels: seq<string>): seq<string>
    decreases |news|
  {
    if |news| == 0 then labels else AddLabels(news[1..], AddIfAbsent(labels, news[0]))
  }

  /** The stored labels stay in front, unchanged and in order. */
  lemma {:induction false} AddLabelsKeepsStored(news: seq<string>, labels: seq<string>)
    ensures |AddLabels(news, labels)| >= |labels|
    ensures AddLabels(news, labels)[..|labels|] == labels
    decreases |news|
  {
    if |news| > 0 {
      var l1 := AddIfAbsent(labels, news[0]);
      AddLabelsKeepsStored(news[1..], l1);
      assert AddLabels(news, labels)[..|l1|][..|labels|] == AddLabels(news, labels)[..|labels|];
    }
  }

  /** A label of the result is a stored label or a new one, and every new label ends up in
      the result. */
  lemma {:induction false} AddLabelsContents(news: seq<string>, labels: seq<string>)
    ensures forall x :: x in AddLabels(news, labels) <==> x in labels || x in news
    decreases |news|
  {
    if |news| > 0 {
      var l1 := AddIfAbsent(labels, news[0]);
      AddLabelsContents(news[1..], l1);
      assert forall x :: x in l1 <==> x in labels || x == news[0];
      assert forall x :: x in news <==> x == news[0] || x in news[1..];
    }
  }

  lemma AddIfAbsentNoDuplicates(labels: seq<string>, x: string)
    requires NoDuplicates(labels)
    ensures NoDuplicates(AddIfAbsent(labels, x))
  {
    if x !in labels {
      var r := labels + [x];
      forall i, j | 0 <= i < j < |r| ensures r[i] != r[j] {
        if j == |labels| {
          assert r[i] == labels[i];
        }
      }
    }
  }

  lemma AddDescriptionLabelNoDuplicates(d: Option<string>, labels: seq<string>)
    requires NoDuplicates(labels)
    ensures NoDuplicates(AddDescriptionLabel(d, labels))
  {
    if d.Some? {
      AddIfAbsentNoDuplicates(labels, d.value);
    }
  }

  /** Merging never creates a duplicate value. */
  lemma {:induction false} AddLabelsNoDuplicates(news: seq<string>, labels: seq<string>)
    requires NoDuplicates(labels)
    ensures NoDuplicates(AddLabels(news, labels))
    decreases |news|
  {
    if |news| > 0 {
      AddIfAbsentNoDuplicates(labels, news[0]);
      AddLabelsNoDuplicates(news[1..], AddIfAbsent(labels, news[0]));
    }
  }

  /** New labels that are all stored already change nothing; hence merging the same labels
      twice is merging them once. */
  lemma {:induction false} AddLabelsOfStored(news: seq<string>, labels: seq<string>)
    requires forall x :: x in news ==> x in labels
    ensures AddLabels(news, labels) == labels
    decreases |news|
  {
    if |news| > 0 {
      assert news[0] in news;
      AddLabelsOfStored(news[1..], labels);
    }
  }

  lemma AddLabelsIdempotent(news: seq<string>, labels: seq<string>)
    ensures AddLabels(news, AddLabels(news, labels)) == AddLabels(news, labels)
  {
    AddLabelsContents(news, labels);
    AddLabelsOfStored(news, AddLabels(news, labels));
  }
}
