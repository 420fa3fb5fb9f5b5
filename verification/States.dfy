/** The workflow tables (internal/story/states.go). */
module States {

  datatype Type = Feature | Bug | Chore

  datatype State =
    | InIcebox | InBacklog | Unstarted | Started | Finished | Delivered | Accepted | Rejected

  /** A panel of the board; `Done` is history and never a move target. */
  datatype Section = Icebox | Backlog | Current | Done

  /** The whole workflow. */
  function Transitions(s: State): set<State> {
    match s
    case InIcebox => {InBacklog, Unstarted, Started}
    case InBacklog => {InIcebox, Unstarted, Started}
    case Unstarted => {InIcebox, InBacklog, Started}
    case Started => {Finished, Unstarted}
    case Finished => {Delivered, Started}
    case Delivered => {Accepted, Rejected}
    case Rejected => {Started}
    case Accepted => {Delivered}
  }

  predicate CanTransition(from: State, to: State) { to in Transitions(from) }

  function SectionOf(s: State): Section {
    match s
    case InIcebox => Icebox
    case InBacklog => Backlog
    case _ => Current
  }

  /** Whose stories are ordered together in a section. */
  function OrderedStates(sec: Section): set<State> {
    match sec
    case Icebox => {InIcebox}
    case Backlog => {InBacklog}
    case Current => {Unstarted, Started, Finished, Delivered, Rejected}
    case Done => {}
  }

  /** What dragging into a section makes of a story. */
  function EntryState(sec: Section): State {
    match sec
    case Icebox => InIcebox
    case Backlog => InBacklog
    case _ => Unstarted
  }

  predicate InProgress(s: State) {
    s == Started || s == Finished || s == Delivered || s == Rejected
  }

  const ESTIMATES: set<int> := {0, 1, 2, 3, 5, 8}

  predicate ValidEstimate(v: int) { v in ESTIMATES }

  /** The workflow in words: planned states lead to each other and to started; started, finished and
      delivered follow each other, with a way back to started, or to unstarted; a delivered story is
      accepted or rejected; a rejected one is restarted; an accepted one becomes delivered again. */
  lemma WorkflowSteps(from: State, to: State)
    ensures var planned := {InIcebox, InBacklog, Unstarted};
            CanTransition(from, to) <==>
              || (from in planned && to in planned && from != to)
              || (to == Started && from in planned + {Finished, Rejected})
              || (from == Started && to in {Finished, Unstarted}) || (from == Finished && to == Delivered)
              || (from == Delivered && to in {Accepted, Rejected}) || (from == Accepted && to == Delivered)
  {
  }

  /** The scopes partition the states that are not frozen. */
  lemma ScopesPartition(s: State, sec: Section)
    ensures s in OrderedStates(sec) <==> s != Accepted && SectionOf(s) == sec
  {
  }

  /** Dragging never does more than the workflow allows: what a move between
      panels does to the state is a transition `Update` would accept. */
  lemma DragIsTransition(s: State, sec: Section)
    requires sec != Done && s != Accepted && (InProgress(s) ==> sec == Current)
    ensures SectionOf(s) != sec ==> CanTransition(s, EntryState(sec)) && SectionOf(EntryState(sec)) == sec
  {
  }
}
