/** The static question bank: the technology keys with their five predefined
    questions each, and the generic questions used for a technology without a key. */
module QuestionBank {
  import Bank

  /** `TECH_QUESTIONS`: keys are lower-case technology names. */
  const TechQuestions: map<string, seq<string>> := map[
    "python" := [
      "Explain the difference between a list and a tuple in Python.",
      "How would you handle exceptions in Python?",
      "What are decorators in Python and how do they work?",
      "Explain list comprehensions and provide an example.",
      "How does memory management work in Python?"
    ],
    "javascript" := [
      "What's the difference between '==' and '===' in JavaScript?",
      "Explain closures in JavaScript with an example.",
      "How does prototypal inheritance work?",
      "What are Promises and how do they differ from callbacks?",
      "Explain event delegation in JavaScript."
    ],
    "react" := [
      "What are React hooks and why were they introduced?",
      "Explain the component lifecycle in React.",
      "What is the virtual DOM and how does it work?",
      "How would you optimize performance in a React application?",
      "Explain the context API and when you would use it."
    ],
    "java" := [
      "What's the difference between an interface and an abstract class?",
      "Explain garbage collection in Java.",
      "What are generics and why are they useful?",
      "How does multithreading work in Java?",
      "What are the key principles of OOP in Java?"
    ],
    "sql" := [
      "What's the difference between INNER JOIN and LEFT JOIN?",
      "Explain normalization and when you would use it.",
      "How would you optimize a slow SQL query?",
      "What are indexes and how do they work?",
      "Explain the difference between DELETE and TRUNCATE."
    ],
    "mongodb" := [
      "How does MongoDB store data compared to SQL databases?",
      "Explain sharding in MongoDB.",
      "What are the ACID properties in MongoDB?",
      "How would you design schema for a social media application?",
      "Explain indexing strategies in MongoDB."
    ],
    "docker" := [
      "What's the difference between Docker and virtual machines?",
      "Explain Docker layers and how they work.",
      "How would you persist data in Docker?",
      "Explain Docker networking concepts.",
      "What is Docker Compose and when would you use it?"
    ],
    "aws" := [
      "Explain the differences between EC2, ECS, and Lambda.",
      "How would you design a highly available architecture in AWS?",
      "What are the key security best practices in AWS?",
      "Explain the concept of IAM and role-based access.",
      "How does S3 storage work and what are its use cases?"
    ],
    "django" := [
      "Explain the MTV architecture in Django.",
      "How does the ORM work in Django?",
      "What are middleware in Django and how are they used?",
      "Explain Django's authentication system.",
      "How would you optimize a Django application for performance?"
    ],
    "nodejs" := [
      "How does the event loop work in Node.js?",
      "What's the difference between process.nextTick() and setImmediate()?",
      "How would you handle async operations in Node.js?",
      "Explain the module system in Node.js.",
      "What are streams in Node.js and how would you use them?"
    ],
    "css" := [
      "Explain the box model in CSS.",
      "What's the difference between flexbox and grid?",
      "How does CSS specificity work?",
      "Explain CSS positioning (relative, absolute, fixed, sticky).",
      "What are CSS preprocessors and what benefits do they provide?"
    ],
    "html" := [
      "What's new in HTML5?",
      "Explain semantic HTML and why it's important.",
      "How do you optimize HTML for accessibility?",
      "What are data attributes and how are they used?",
      "Explain the critical rendering path in browsers."
    ],
    "devops" := [
      "What is CI/CD and how does it benefit development?",
      "Explain infrastructure as code and its benefits.",
      "How would you implement blue/green deployment?",
      "What monitoring tools have you used and why?",
      "How do you approach logging in a microservices architecture?"
    ],
    "git" := [
      "Explain the difference between merge and rebase.",
      "How would you fix a bad commit that's already pushed?",
      "What's your branching strategy preference and why?",
      "Explain git hooks and how they can be used.",
      "How do you handle merge conflicts?"
    ]
  ]

  /** `DEFAULT_QUESTIONS` */
  const DefaultQuestions: seq<string> := [
    "Can you describe your experience with this technology?",
    "What projects have you worked on using this technology?",
    "What are some challenges you've faced with this technology and how did you overcome them?",
    "How do you stay updated with the latest developments in this field?",
    "Can you explain a complex concept in this technology in simple terms?"
  ]

  /** The keys of the bank, in the order the source declares them. */
  const TechKeys: seq<string> := ["python", "javascript", "react", "java", "sql", "mongodb", "docker", "aws", "django", "nodejs", "css", "html", "devops", "git"]

  /** The tables the source declares. */
  const Source: Bank.Tables := Bank.Tables(TechQuestions, DefaultQuestions)

  /** The declared tables are well formed. */
  lemma SourceIsWellFormed()
    ensures Source.WellFormed()
  {
  }

  /** The key set of the bank is exactly the declared list of keys. */
  lemma KeysAreDeclared()
    ensures TechQuestions.Keys == set k | k in TechKeys
  {
  }

  /** Every technology in the bank has five distinct predefined questions. */
  lemma BankEntriesHaveFiveQuestions(tech: string)
    requires tech in TechQuestions
    ensures |TechQuestions[tech]| == 5
    ensures forall i, j :: 0 <= i < j < 5 ==> TechQuestions[tech][i] != TechQuestions[tech][j]
  {
  }
}
