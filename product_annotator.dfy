/** The annotation session: the labels a user has picked for the current image,
    and the dataset table shared by every session of the process. */
module Annotator {
  import opened Suggestions
  import opened Labels
  import opened Dataset

  /** How `submit_label` ends. `Added`: the row was appended. `Recovered`: the
      append raised, the fallback save wrote `snapshot` and the error was
      swallowed. `Escaped`: the append raised and the fallback save's write
      raised too, inside the handler, so that error leaves `submit_label`. */
  datatype SubmitOutcome =
    | Added
    | Recovered(snapshot: Snapshot)
    | Escaped(snapshot: Snapshot)

  class ProductAnnotator {
    /** The suggestions picked so far for the current image, in click order. */
    var labels: seq<string>
    /** The class-level table: every instance is given the same generator. */
    const dataset: DatasetGenerator

    /** A new session starts with no picked labels and refers to the shared table. */
    constructor (shared: DatasetGenerator)
      ensures labels == [] && dataset == shared
    {
      labels := [];
      dataset := shared;
    }

    /** `merge_labels`: appends the picks and returns every pick so far joined by
        spaces; the label shown before is kept as the front of the new one. */
    method MergeLabels(picks: seq<string>) returns (composed: string)
      modifies this`labels
      ensures labels == old(labels) + picks
      ensures composed == Join(labels)
      ensures old(labels) == [] ==> composed == Join(picks)
      ensures picks == [] ==> composed == Join(old(labels))
      ensures old(labels) != [] && picks != [] ==>
                composed == Join(old(labels)) + " " + Join(picks)
    {
      labels := labels + picks;
      composed := Join(labels);
      if old(labels) != [] && picks != [] {
        JoinAppend(old(labels), picks);
      }
      assert picks == [] ==> labels == old(labels);
      assert old(labels) == [] ==> labels == picks;
    }

    /** The clear button: forgets every pick. */
    method ClearLabels()
      modifies this`labels
      ensures labels == []
    {
      labels := [];
    }

    /** `submit_label`: appends the row to the shared table. `addRaises` says
        whether the append raised; if it did, the table is saved to the file of
        `timestamp` instead, and `writeRaises` says whether that write raised.
        The session's own picks are not touched. */
    method SubmitLabel(imagePath: string, productLabel: string, addRaises: bool,
                       timestamp: string, writeRaises: bool)
      returns (outcome: SubmitOutcome)
      modifies dataset
      ensures !addRaises ==>
                outcome == Added && dataset.rows == old(dataset.rows) + [Row(imagePath, productLabel)]
      ensures addRaises ==>
                dataset.rows == old(dataset.rows) &&
                !outcome.Added? &&
                outcome.snapshot == Snapshot(DatasetFilepath(timestamp), old(dataset.rows)) &&
                (outcome.Recovered? <==> !writeRaises)
    {
      if !addRaises {
        dataset.AddLabel(imagePath, productLabel);
        outcome := Added;
      } else {
        var snapshot := dataset.SaveDataset(timestamp);
        outcome := if writeRaises then Escaped(snapshot) else Recovered(snapshot);
      }
    }
  }

  /** The running process. Its `dataset` is the class attribute
      `ProductAnnotator.dataset`: one generator, created when the class is
      defined, that every session refers to. */
  class Process {
    const dataset: DatasetGenerator

    /** Defining the class creates the one table, empty. */
    constructor ()
      ensures fresh(dataset) && dataset.rows == []
    {
      dataset := new DatasetGenerator();
    }

    /** `ProductAnnotator()`: a new session with no picks, bound to the process's
        one table rather than to a table of its own. */
    method NewSession() returns (session: ProductAnnotator)
      ensures fresh(session) && session.dataset == dataset && session.labels == []
    {
      session := new ProductAnnotator(dataset);
    }
  }

  /** Pressing clear and then picking: the composed label holds only the new picks. */
  method ClearThenPick(session: ProductAnnotator, picks: seq<string>) returns (composed: string)
    modifies session
    ensures session.labels == picks && composed == Join(picks)
  {
    session.ClearLabels();
    composed := session.MergeLabels(picks);
  }

  /** The worked example continued: after clear, picking "Cola" and then "Diet"
      in two clicks composes "Cola Diet". */
  method PickColaThenDiet(session: ProductAnnotator) returns (composed: string)
    modifies session
    ensures session.labels == ["Cola", "Diet"] && composed == "Cola Diet"
  {
    session.ClearLabels();
    var first := session.MergeLabels(["Cola"]);
    composed := session.MergeLabels(["Diet"]);
  }

  /** The interrupt handler's flush: it builds a fresh session, as any caller of
      `ProductAnnotator()` does, and saves that session's table; that table is the
      process's one table, so every row accumulated so far is written. */
  method InterruptFlush(process: Process, timestamp: string) returns (snapshot: Snapshot)
    ensures snapshot == Snapshot(DatasetFilepath(timestamp), process.dataset.rows)
  {
    var session := process.NewSession();
    snapshot := session.dataset.SaveDataset(timestamp);
  }

  /** Two sessions submitting one row each grow the one shared table by both rows,
      in order, and a later flush writes both. */
  method SessionsShareTable(process: Process, first: Row, second: Row, timestamp: string)
    returns (snapshot: Snapshot)
    modifies process.dataset
    ensures process.dataset.rows == old(process.dataset.rows) + [first, second]
    ensures snapshot.rows == process.dataset.rows
  {
    var one := process.NewSession();
    var two := process.NewSession();
    var _ := one.SubmitLabel(first.imagePath, first.productLabel, false, timestamp, false);
    var _ := two.SubmitLabel(second.imagePath, second.productLabel, false, timestamp, false);
    snapshot := InterruptFlush(process, timestamp);
  }

  /** The worked example: with minimum length 2, "Co" (length 2) is not offered
      while "Cola" and "Diet" are, in that order. */
  lemma ColaDietExample()
    ensures ProcessImage(Extracted(["Co", "Cola", "Diet"]), 2) == ["Cola", "Diet"]
  {
    var ocr := ["Co", "Cola", "Diet"];
    assert Filter(ocr, 2) == ["Cola", "Diet"] by {
      assert ocr[1..] == ["Cola", "Diet"] && ocr[1..][1..] == ["Diet"] && ocr[1..][1..][1..] == [];
      assert Filter(["Diet"], 2) == ["Diet"];
      assert Filter(["Cola", "Diet"], 2) == ["Cola"] + ["Diet"];
    }
  }
}
