/** The fixed benchmark task catalog and the category filter applied to it. */
module Catalog {

  /** One benchmark task: a question plus grading hints for a human judge. */
  datatype Task = Task(
    id: string,
    category: string,
    difficulty: string,
    question: string,
    expectedAnswer: string,
    evalCriteria: string)

  /** The nine categories the command line accepts for `--category`. */
  const Categories: set<string> := {
    "math", "code", "reasoning", "analysis", "summarization",
    "writing_business", "writing_creative", "creative", "factual"
  }

  const Difficulties: set<string> := {"easy", "medium", "hard"}

  const CodeDebugQuestion: string :=
    "Find and fix the bug in this Python code:\n\n```python\ndef calculate_average(numbers):\n"
    + "    total = 0\n    for num in numbers:\n        total += num\n    return total / len(numbers)\n\n"
    + "result = calculate_average([])\nprint(result)\n```\n\nWhat's the bug and how would you fix it?"

  const ArgumentQuestion: string :=
    "Evaluate this argument and identify any logical flaws:\n\n"
    + "\"Sales of ice cream increase during summer months. Crime rates also increase during summer months. "
    + "Therefore, eating ice cream causes crime.\"\n\nWhat's wrong with this reasoning?"

  const TechnicalSummaryQuestion: string :=
    "Summarize the following technical document excerpt in 3-4 bullet points, capturing the key information:\n\n"
    + "The Model Context Protocol (MCP) is an open standard that enables seamless integration between AI "
    + "applications and external data sources. It provides a unified protocol for connecting language models "
    + "to tools, databases, and APIs. MCP uses a client-server architecture where the AI application acts as a "
    + "client connecting to MCP servers that expose resources and capabilities. Key features include: resource "
    + "discovery allowing clients to find available data sources, tool invocation for executing actions, and "
    + "prompt templates for structured interactions. The protocol supports both local servers running on the "
    + "same machine and remote servers accessed over the network. Security is handled through capability-based "
    + "access control, where servers declare what operations they support and clients request only the "
    + "capabilities they need. MCP aims to replace the fragmented landscape of custom integrations with a "
    + "single, standardized approach that any AI application can adopt."

  const BusinessSummaryQuestion: string :=
    "Summarize this quarterly report excerpt into an executive summary (2-3 sentences):\n\n"
    + "Q3 2025 showed mixed results for Acme Corp. Revenue increased 12% year-over-year to 4.2 billion dollars, "
    + "driven primarily by strong performance in the cloud services division which grew 34%. However, the legacy "
    + "hardware division continued its decline, dropping 18% as customers migrate to cloud solutions. Operating "
    + "margins compressed by 2 percentage points to 15% due to increased R&D spending on AI initiatives. The "
    + "company announced plans to acquire DataFlow Inc. for 800 million dollars to accelerate its data analytics "
    + "capabilities. Customer retention remained strong at 94%, though new customer acquisition slowed compared "
    + "to Q2. The company reaffirmed its full-year revenue guidance of 17 billion dollars but lowered profit "
    + "guidance citing continued investment in strategic priorities."

  /** The catalog, in declaration order. */
  const EvalTasks: seq<Task> := [
    Task("math_arithmetic", "math", "easy",
      "What is 847 \U{D7} 23? Show your work step by step.",
      "19481",
      "Correct final answer of 19481 with clear working shown"),
    Task("math_word_problem", "math", "medium",
      "A train leaves Station A at 9:00 AM traveling at 60 mph. Another train leaves Station B (180 miles away) "
      + "at 10:00 AM traveling toward Station A at 40 mph. At what time do they meet?",
      "11:12 AM (or 11:11-11:13 range acceptable)",
      "Correct time calculation with proper reasoning about relative motion"),
    Task("code_debug", "code", "easy",
      CodeDebugQuestion,
      "ZeroDivisionError when empty list; add check for empty list",
      "Identifies division by zero error and provides reasonable fix"),
    Task("code_explain", "code", "medium",
      "Explain what a decorator is in Python. Give a simple example of a decorator that logs when a function is called.",
      "Function that wraps another function; working @log example",
      "Clear explanation of decorator concept with working code example"),
    Task("reasoning_logic", "reasoning", "medium",
      "If all Bloops are Razzles, and all Razzles are Lazzles, are all Bloops definitely Lazzles? Explain your reasoning.",
      "Yes, by transitive property",
      "Correct answer with clear logical explanation (syllogism/transitivity)"),
    Task("reasoning_multistep", "reasoning", "hard",
      "A farmer has a fox, a chicken, and a bag of grain. He needs to cross a river in a boat that can only carry "
      + "him and one item at a time. If left alone together, the fox will eat the chicken, and the chicken will eat "
      + "the grain. How can he get everything across safely? List the steps.",
      "Classic river crossing: chicken first, return, fox/grain, bring chicken back, other item, return, chicken last",
      "Correct sequence of moves that prevents any eating; clear step-by-step solution"),
    Task("analysis_argument", "analysis", "medium",
      ArgumentQuestion,
      "Correlation vs causation fallacy; third variable (heat/summer) causes both",
      "Identifies correlation vs causation fallacy; mentions confounding variable (weather/heat)"),
    Task("analysis_tradeoffs", "analysis", "medium",
      "A startup is deciding between building their app as a native mobile app (iOS/Android separately) or using "
      + "a cross-platform framework like React Native. What are the key tradeoffs they should consider? List 3 pros "
      + "and 3 cons of each approach.",
      "Native: better performance, full API access, higher cost; Cross-platform: faster dev, one codebase, some limitations",
      "Balanced analysis covering performance, development speed, cost, maintenance, and platform-specific features"),
    Task("summarize_technical", "summarization", "medium",
      TechnicalSummaryQuestion,
      "Key points: open standard for AI-data integration, client-server architecture, features (resources/tools/prompts), "
      + "security via capabilities",
      "Accurate summary capturing: what MCP is, architecture, key features, and security model"),
    Task("summarize_business", "summarization", "medium",
      BusinessSummaryQuestion,
      "Revenue up 12% to 4.2B (cloud strong, hardware declining), margins down due to R&D spend, acquiring DataFlow for 800M",
      "Captures key metrics (revenue, growth rates, margins), strategic moves (acquisition), and outlook in concise format"),
    Task("writing_email", "writing_business", "easy",
      "Write a professional email (3-4 sentences) declining a meeting request due to a scheduling conflict, while "
      + "suggesting alternative times next week.",
      "Professional tone, clear decline, offers alternatives, polite closing",
      "Professional tone, clear communication, offers specific alternatives, appropriate length"),
    Task("writing_proposal", "writing_business", "medium",
      "Write an opening paragraph (4-5 sentences) for a business proposal to a potential client. The proposal is for "
      + "a website redesign project. The client is a mid-sized law firm that wants to modernize their online presence "
      + "and improve lead generation.",
      "Professional, addresses client needs, hints at solution, establishes credibility",
      "Professional tone, addresses specific client pain points, positions value proposition, appropriate for law firm audience"),
    Task("writing_story_opening", "writing_creative", "medium",
      "Write the opening paragraph (4-5 sentences) of a mystery story set in a small coastal town. Establish "
      + "atmosphere and hint at something unusual.",
      "Atmospheric, sets scene, introduces tension/mystery, engaging hook",
      "Evocative description, clear setting, creates intrigue, strong narrative voice"),
    Task("writing_metaphor", "writing_creative", "easy",
      "Create an original metaphor comparing time to something unexpected (not common metaphors like 'time is money' "
      + "or 'time flies'). Explain why this metaphor works.",
      "Original metaphor with thoughtful explanation of the comparison",
      "Originality (not clich\U{E9}), apt comparison, clear explanation of how the metaphor illuminates something about time"),
    Task("creative_analogy", "creative", "easy",
      "Complete this analogy and explain why: Book is to Library as _____ is to Museum.",
      "Artifact/Exhibit/Painting (or similar collectible item)",
      "Reasonable completion with clear explanation of the relationship"),
    Task("factual_science", "factual", "easy",
      "Why is the sky blue? Explain in 2-3 sentences suitable for a 10-year-old.",
      "Rayleigh scattering; blue light scattered more than other colors",
      "Scientifically accurate but age-appropriate explanation")
  ]

  /** The tasks of `ts` whose category equals `c`, in their original order. */
  function FilterByCategory(ts: seq<Task>, c: string): (r: seq<Task>)
    ensures |r| <= |ts|
    ensures forall t :: t in r <==> t in ts && t.category == c
  {
    if ts == [] then []
    else (if ts[0].category == c then [ts[0]] else []) + FilterByCategory(ts[1..], c)
  }

  /** Filtering distributes over concatenation: the filter never reorders tasks. */
  lemma {:induction false} FilterAppend(a: seq<Task>, b: seq<Task>, c: string)
    ensures FilterByCategory(a + b, c) == FilterByCategory(a, c) + FilterByCategory(b, c)
  {
    if a == [] {
      assert a + b == b;
    } else {
      assert (a + b)[1..] == a[1..] + b;
      FilterAppend(a[1..], b, c);
    }
  }

  /** A list whose tasks all belong to `c` passes the filter unchanged. */
  lemma {:induction false} FilterKeepsMatching(ts: seq<Task>, c: string)
    requires forall i :: 0 <= i < |ts| ==> ts[i].category == c
    ensures FilterByCategory(ts, c) == ts
  {
    if ts != [] {
      FilterKeepsMatching(ts[1..], c);
    }
  }

  /** Filtering twice by the same category is the same as filtering once. */
  lemma FilterIdempotent(ts: seq<Task>, c: string)
    ensures FilterByCategory(FilterByCategory(ts, c), c) == FilterByCategory(ts, c)
  {
    var r := FilterByCategory(ts, c);
    forall i | 0 <= i < |r| ensures r[i].category == c {
      assert r[i] in r;
    }
    FilterKeepsMatching(r, c);
  }

  /** Every task appears in the filter for its own category, which is therefore never empty. */
  lemma OwnCategoryContainsTask(ts: seq<Task>, t: Task)
    requires t in ts
    ensures t in FilterByCategory(ts, t.category)
    ensures FilterByCategory(ts, t.category) != []
  {
  }

  // The three columns below repeat fields of `EvalTasks` (`CatalogColumns`
  // proves they agree), so that proofs about ids, categories and difficulties
  // need not unfold the long question texts, which are costly for the solver.

  /** The ids of the catalog, in order. */
  const CatalogIds: seq<string> := [
    "math_arithmetic", "math_word_problem", "code_debug", "code_explain",
    "reasoning_logic", "reasoning_multistep", "analysis_argument", "analysis_tradeoffs",
    "summarize_technical", "summarize_business", "writing_email", "writing_proposal",
    "writing_story_opening", "writing_metaphor", "creative_analogy", "factual_science"
  ]

  /** The categories of the catalog, in order. */
  const CatalogCategories: seq<string> := [
    "math", "math", "code", "code", "reasoning", "reasoning", "analysis", "analysis",
    "summarization", "summarization", "writing_business", "writing_business",
    "writing_creative", "writing_creative", "creative", "factual"
  ]

  /** The difficulties of the catalog, in order. */
  const CatalogDifficulties: seq<string> := [
    "easy", "medium", "easy", "medium", "medium", "hard", "medium", "medium",
    "medium", "medium", "easy", "medium", "medium", "easy", "easy", "easy"
  ]

  /** The id, category and difficulty columns of the catalog. */
  lemma CatalogColumns()
    ensures |EvalTasks| == 16
    ensures forall i :: 0 <= i < 16 ==> EvalTasks[i].id == CatalogIds[i]
    ensures forall i :: 0 <= i < 16 ==> EvalTasks[i].category == CatalogCategories[i]
    ensures forall i :: 0 <= i < 16 ==> EvalTasks[i].difficulty == CatalogDifficulties[i]
  {
  }

  /** Ids are unique, and every category and difficulty comes from its fixed set. */
  lemma CatalogWellFormed()
    ensures |EvalTasks| == 16
    ensures forall i, j :: 0 <= i < j < |EvalTasks| ==> EvalTasks[i].id != EvalTasks[j].id
    ensures forall i :: 0 <= i < |EvalTasks| ==> EvalTasks[i].category in Categories
    ensures forall i :: 0 <= i < |EvalTasks| ==> EvalTasks[i].difficulty in Difficulties
  {
    CatalogColumns();
    ColumnsWellFormed();
  }

  lemma ColumnsWellFormed()
    ensures forall i, j :: 0 <= i < j < 16 ==> CatalogIds[i] != CatalogIds[j]
    ensures forall i :: 0 <= i < 16 ==> CatalogCategories[i] in Categories
    ensures forall i :: 0 <= i < 16 ==> CatalogDifficulties[i] in Difficulties
  {
  }

  /** Each of the nine categories has at least one task in the catalog. */
  lemma EveryCategoryUsed(c: string)
    requires c in Categories
    ensures FilterByCategory(EvalTasks, c) != []
  {
    CategoryColumnCovers(c);
    var i :| 0 <= i < 16 && CatalogCategories[i] == c;
    CatalogColumns();
    FilterFindsIndex(EvalTasks, c, i);
  }

  lemma CategoryColumnCovers(c: string)
    requires c in Categories
    ensures exists i :: 0 <= i < 16 && CatalogCategories[i] == c
  {
    var i :=
      if c == "math" then 0 else if c == "code" then 2 else if c == "reasoning" then 4
      else if c == "analysis" then 6 else if c == "summarization" then 8
      else if c == "writing_business" then 10 else if c == "writing_creative" then 12
      else if c == "creative" then 14 else 15;
    assert CatalogCategories[i] == c;
  }

  /** A list with a task of category `c` at index `i` has a non-empty filter for `c`. */
  lemma {:induction false} FilterFindsIndex(ts: seq<Task>, c: string, i: nat)
    requires i < |ts| && ts[i].category == c
    ensures FilterByCategory(ts, c) != []
  {
    if i > 0 && ts[0].category != c {
      FilterFindsIndex(ts[1..], c, i - 1);
    }
  }

  /** The `math` filter over the catalog selects exactly its first two tasks. */
  lemma MathSelection()
    ensures FilterByCategory(EvalTasks, "math") == EvalTasks[..2]
  {
    FilterSplit(EvalTasks, 2, "math");
    MathHead();
    MathTail();
  }

  lemma FilterSplit(ts: seq<Task>, k: nat, c: string)
    requires k <= |ts|
    ensures FilterByCategory(ts, c) == FilterByCategory(ts[..k], c) + FilterByCategory(ts[k..], c)
  {
    assert ts[..k] + ts[k..] == ts;
    FilterAppend(ts[..k], ts[k..], c);
  }

  lemma MathHead()
    ensures FilterByCategory(EvalTasks[..2], "math") == EvalTasks[..2]
  {
    CatalogColumns();
    FilterKeepsMatching(EvalTasks[..2], "math");
  }

  lemma MathTail()
    ensures FilterByCategory(EvalTasks[2..], "math") == []
  {
    CatalogColumns();
    FilterNoneMatching(EvalTasks[2..], "math");
  }

  /** A list with no task in `c` filters to nothing. */
  lemma {:induction false} FilterNoneMatching(ts: seq<Task>, c: string)
    requires forall i :: 0 <= i < |ts| ==> ts[i].category != c
    ensures FilterByCategory(ts, c) == []
  {
    if ts != [] {
      FilterNoneMatching(ts[1..], c);
    }
  }

  /** A category the catalog does not use selects no task from it. */
  lemma UnusedCategorySelectsNothing(c: string)
    requires c !in Categories
    ensures FilterByCategory(EvalTasks, c) == []
  {
    CatalogWellFormed();
    FilterNoneMatching(EvalTasks, c);
  }
}
