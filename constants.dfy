/**
 * The site's fixed catalogue data: the lists the filters, carousels and
 * the role picker work on. Only the fields the logic reads are spelled out
 * in full; long descriptions are kept since they cost nothing.
 */
module Constants {
  import opened Types

  const INTERNSHIPS: seq<Internship> := [
    Internship("1", "Python Development", Free, "1-3 Months", Online, "Learn Python basics to advanced frameworks like Django/Flask."),
    Internship("2", "Web Development (PHP)", Paid, "3 Months", Offline, "Full stack development with PHP, MySQL, and Modern JS."),
    Internship("3", "IoT Solutions", Paid, "2 Months", Offline, "Hands-on training with Arduino, Raspberry Pi and Sensors."),
    Internship("4", "Node.js Backend", Free, "2 Months", Online, "Build scalable APIs and microservices with Node.js."),
    Internship("5", "Java Programming", Paid, "3 Months", Online, "Core Java to Enterprise Java applications.")
  ]

  const JOBS: seq<Job> := [
    Job("1", "Frontend Developer (React)", InternshipPosition, Remote,
      "We are looking for a passionate Frontend Developer intern to build modern UI components using React and Tailwind CSS.",
      ["Development", "React", "Frontend"], "Certificate, Mentorship, LOR",
      ["Build reusable UI components", "Integrate RESTful APIs", "Debug and fix UI issues", "Ensure mobile responsiveness"]),
    Job("2", "Backend Developer (Node.js)", InternshipPosition, HybridSite,
      "Join our backend team to design and optimize scalable APIs and database architectures.",
      ["Development", "Backend", "Database"], "Certificate, Live Projects, Networking",
      ["Design database schemas", "Create robust API endpoints", "Manage server deployment", "Optimize query performance"]),
    Job("3", "Mobile App Dev (Flutter)", InternshipPosition, Remote,
      "Help us build cross-platform mobile applications for iOS and Android using Flutter.",
      ["Development", "Mobile", "Dart"], "Certificate, Flexible hours, Remote Work",
      ["Develop cross-platform apps", "Implement pixel-perfect UIs", "Manage app state efficiently", "Integrate backend services"]),
    Job("4", "UI/UX Designer (Figma)", InternshipPosition, Remote,
      "Creative designer needed to craft intuitive user experiences and beautiful interfaces.",
      ["Design", "Creative", "Figma"], "Certificate, Portfolio building, Workshops",
      ["Create wireframes & prototypes", "Conduct user research", "Design mobile & web interfaces", "Maintain design systems"]),
    Job("5", "Marketing Intern", InternshipPosition, OnSite,
      "Energetic intern required to handle social media campaigns and digital outreach.",
      ["Marketing", "Social Media"], "Performance Incentives, Certificate",
      ["Manage social media handles", "Create engaging content", "Analyze campaign metrics", "Coordinate with design team"]),
    Job("6", "Gen AI Intern", InternshipPosition, Remote,
      "Explore the cutting edge of AI with research and implementation of LLM-based solutions.",
      ["AI", "Research", "Python"], "Access to premium AI tools, Mentorship",
      ["Prompt engineering & testing", "Integrate LLM APIs", "Research RAG techniques", "Build AI-powered prototypes"])
  ]

  const PRODUCTS: seq<Product> := [
    Product("1", "Inventory Manager", "Track stock levels and orders in real-time.", "Business"),
    Product("2", "Smart HRMS", "Employee attendance, payroll, and performance tracking.", "HR"),
    Product("3", "Campus Connect", "Complete college management ERP system.", "Education"),
    Product("4", "DocuHealth", "Hospital management and patient record system.", "Healthcare"),
    Product("5", "E-Shop Pro", "Turnkey e-commerce solution for small businesses.", "E-commerce"),
    Product("6", "Quiz Master", "Online exam and quiz management platform.", "Education")
  ]

  const AWARDEES: seq<Awardee> := [
    Awardee("1", "Dr. K. Gowri", "Professor, CSE", "https://picsum.photos/150/150?random=10", "Honored for excellence in mentoring research students."),
    Awardee("2", "Somasundaram K", "HOD, IT Dept", "https://picsum.photos/150/150?random=11", "Awarded for innovative curriculum design."),
    Awardee("3", "Priya R", "Senior Lecturer", "https://picsum.photos/150/150?random=12", "Best Student Support Award 2024.")
  ]

  const TESTIMONIALS: seq<Testimonial> := [
    Testimonial("1", "Arjun Kumar", "Student, SRM University", "The internship at Wisecrew gave me the real-world exposure I needed. The mentors are fantastic!"),
    Testimonial("2", "Divya S", "Frontend Dev Intern", "I learned more in 2 months here than I did in a whole year of college. Highly recommended."),
    Testimonial("3", "Prof. Ramesh", "HOD, SVCE", "Wisecrew Solutions provides excellent industrial training that bridges the gap between academia and industry."),
    Testimonial("4", "Sneha P", "Full Stack Student", "The course structure is amazing. I got placed in a top MNC after completing the Java course.")
  ]

  const FAQS: seq<FaqItem> := [
    FaqItem("Is the internship really free?", "Yes, we offer select free internships for meritorious students which include real-time project experience. We also have paid premium programs with intensive mentorship."),
    FaqItem("Do you provide certificates?", "Absolutely. All interns and course participants receive a verifiable certificate upon successful completion."),
    FaqItem("Can I do the internship online?", "Yes, most of our internships are available in both Online and Offline modes to suit your schedule."),
    FaqItem("How do I apply for a job?", "Navigate to the Careers section, check the open positions, and use the \"Apply Now\" form to submit your details.")
  ]

  const WORKSHOPS: seq<Workshop> := [
    Workshop("1", "Generative AI Tools & Prompt Engineering", "Oct 25, 2025", WorkshopOnline, "A hands-on session exploring the latest AI tools, LLMs, and efficient prompt construction.", Upcoming),
    Workshop("2", "Full Stack Roadmap 2025", "Sep 10, 2025", WorkshopOnline, "Guide to becoming a full stack developer in 2025.", Completed)
  ]
}
